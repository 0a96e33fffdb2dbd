/**
 * One tool call in hub.go: the retry closure, the connections it may write to, and the verdict of the waiting dispatcher.
 * The closure runs under the call's own lock but reads the connection table in two separate sections, so connects,
 * reconnects and removals fall between its steps; the verdict is read and `finished` is set in two further sections.
 */
module ToolCalls {
  import opened Wrappers
  import opened DeviceHub

  const MAX_ATTEMPTS: nat := 4

  // The variables that the closure captures.
  datatype Call = Call(bound: Option<Conn>, attempts: nat, delivered: bool, finished: bool)

  datatype Write = Write(target: Conn, ok: bool)

  datatype Status = Answered | Timeout | Offline

  // What the dispatcher is doing: making the first attempt, waiting, returning with a status, gone.
  datatype Phase = Dispatching | Waiting | Deciding(status: Status) | Returned(status: Status)

  // The holder of the call's lock; `own` marks the dispatcher's first attempt.
  datatype Retry = Idle | Looking(own: bool) | Rebinding(own: bool) | Sending(own: bool, target: Conn)

  // `choice` is the connection table from which the first target was chosen, `heard` the number of writes that had been
  // made when the status was settled; both are history.
  datatype State = State(deviceID: string, conns: Table, call: Call, retry: Retry, phase: Phase, writes: seq<Write>,
                         choice: Table, heard: nat)

  datatype Label =
    | Hub(conns: Table)                      // any change of the connection table
    | Enter(trigger: Option<Conn>)           // None is the dispatcher's own attempt
    | Look(target: Option<Conn>)             // h.target
    | Rebind                                 // the second read of the table
    | Send(ok: bool)
    | Answer                                 // the response arrived
    | Verdict                                // the request expired
    | Finish

  predicate SameInstallation(a: Conn, b: Conn) {
    a.deviceID == b.deviceID && a.connectionID == b.connectionID
  }

  predicate Blocked(call: Call, trigger: Option<Conn>) {
    || call.finished
    || call.attempts >= MAX_ATTEMPTS
    || (call.bound.Some? && trigger.Some? && !SameInstallation(trigger.value, call.bound.value))
  }

  // The registered, authenticated connection with the ids of the bound one.
  function Reconnected(conns: Table, bound: Conn): Option<Conn> {
    if bound.connectionID in conns && conns[bound.connectionID].authenticated && conns[bound.connectionID].deviceID == bound.deviceID
    then Some(conns[bound.connectionID]) else None
  }

  function Attempted(call: Call, target: Conn): Call {
    call.(bound := if call.bound.None? then Some(target) else call.bound, attempts := call.attempts + 1)
  }

  ghost predicate IsTarget(conns: Table, deviceID: string, target: Option<Conn>) {
    match target
    case None => forall id :: id in conns ==> !Matches(conns[id], deviceID)
    case Some(c) => BestTarget(conns, deviceID, c)
  }

  ghost predicate Enabled(s: State, l: Label) {
    match l
    case Hub(conns) => ById(conns)
    case Enter(trigger) => s.retry.Idle? && (trigger.None? ==> s.phase.Dispatching?)
    case Look(target) => s.retry.Looking? && IsTarget(s.conns, s.deviceID, target)
    case Rebind => s.retry.Rebinding? && s.call.bound.Some?
    case Send(_) => s.retry.Sending?
    case Answer => s.phase.Waiting?
    case Verdict => s.phase.Waiting? && s.retry.Idle?
    case Finish => s.phase.Deciding? && s.retry.Idle?
  }

  function Left(s: State, own: bool): State {
    s.(retry := Idle, phase := if own then Waiting else s.phase)
  }

  function Sends(s: State, own: bool, target: Option<Conn>): State {
    match target
    case None => Left(s, own)
    case Some(c) => s.(call := Attempted(s.call, c), retry := Sending(own, c))
  }

  function Step(s: State, l: Label): State
    requires Enabled(s, l)
  {
    match l
    case Hub(conns) => s.(conns := conns)
    case Enter(trigger) => if Blocked(s.call, trigger) then Left(s, trigger.None?) else s.(retry := Looking(trigger.None?))
    case Look(target) =>
      if s.call.bound.Some? then s.(retry := Rebinding(s.retry.own)) else Sends(s.(choice := s.conns), s.retry.own, target)
    case Rebind => Sends(s, s.retry.own, Reconnected(s.conns, s.call.bound.value))
    case Send(ok) =>
      Left(s.(writes := s.writes + [Write(s.retry.target, ok)], call := s.call.(delivered := s.call.delivered || ok)), s.retry.own)
    case Answer => s.(phase := Deciding(Answered), heard := |s.writes|)
    case Verdict => s.(phase := Deciding(if s.call.delivered then Timeout else Offline), heard := |s.writes|)
    case Finish => s.(phase := Returned(s.phase.status), call := s.call.(finished := true))
  }

  function Initial(deviceID: string, conns: Table): State {
    State(deviceID, conns, Call(None, 0, false, false), Idle, Dispatching, [], map[], 0)
  }

  ghost predicate StepAt(run: seq<State>, i: nat)
    requires i + 1 < |run|
  {
    exists l :: Enabled(run[i], l) && run[i + 1] == Step(run[i], l)
  }

  ghost predicate IsRun(run: seq<State>) {
    && |run| > 0
    && ById(run[0].conns) && run[0] == Initial(run[0].deviceID, run[0].conns)
    && forall i: nat :: i + 1 < |run| ==> StepAt(run, i)
  }

  // ------------------------------------------------------------------ the invariant

  ghost predicate SomeOk(writes: seq<Write>) {
    exists w :: w in writes && w.ok
  }

  ghost predicate ToInstallation(writes: seq<Write>, bound: Conn) {
    && (writes != [] ==> writes[0].target == bound)
    && forall w :: w in writes ==> SameInstallation(w.target, bound)
  }

  ghost predicate CallOk(s: State) {
    && s.call.attempts == |s.writes| + (if s.retry.Sending? then 1 else 0)
    && s.call.attempts <= MAX_ATTEMPTS
    && (s.retry.Looking? || s.retry.Rebinding? ==> s.call.attempts < MAX_ATTEMPTS && !s.call.finished)
    && (s.call.bound.Some? <==> s.call.attempts > 0)
    && (s.call.delivered <==> SomeOk(s.writes))
    && (s.call.finished <==> s.phase.Returned?)
    && (s.call.finished ==> s.retry.Idle?)
  }

  ghost predicate TargetsOk(s: State) {
    && ById(s.conns) && ById(s.choice)
    && (s.retry.Rebinding? ==> s.call.bound.Some?)
    && (s.call.bound.Some? ==> ToInstallation(s.writes, s.call.bound.value))
    && (s.call.bound.Some? ==> BestTarget(s.choice, s.deviceID, s.call.bound.value))
    && (s.retry.Sending? ==> s.call.bound.Some? && SameInstallation(s.retry.target, s.call.bound.value))
    && (s.retry.Sending? && s.writes == [] ==> s.retry.target == s.call.bound.value)
  }

  ghost predicate Settled(phase: Phase) {
    phase.Deciding? || phase.Returned?
  }

  ghost predicate StatusOk(s: State) {
    Settled(s.phase) && !s.phase.status.Answered? ==>
      s.heard <= |s.writes| && (s.phase.status == Timeout <==> SomeOk(s.writes[..s.heard]))
  }

  // The dispatcher waits only after its own attempt.
  ghost predicate PhaseOk(s: State) {
    s.phase.Dispatching? || (s.retry.Idle? || !s.retry.own)
  }

  ghost predicate Inv(s: State) {
    CallOk(s) && TargetsOk(s) && StatusOk(s) && PhaseOk(s)
  }

  lemma SendInv(s: State, ok: bool)
    requires Inv(s) && s.retry.Sending?
    ensures Inv(Step(s, Send(ok)))
  {
    var w := Write(s.retry.target, ok);
    var t := Step(s, Send(ok));
    assert t.writes == s.writes + [w];
    assert forall x :: x in t.writes <==> x in s.writes || x == w;
    if Settled(s.phase) && !s.phase.status.Answered? { assert t.writes[..s.heard] == s.writes[..s.heard]; }
  }

  lemma StepInv(s: State, l: Label)
    requires Inv(s) && Enabled(s, l)
    ensures Inv(Step(s, l)) && Step(s, l).deviceID == s.deviceID
  {
    match l {
      case Send(ok) => SendInv(s, ok);
      case Verdict => assert s.writes[..|s.writes|] == s.writes;
      case _ =>
    }
  }

  lemma {:induction false} Reachable(run: seq<State>, i: nat)
    requires IsRun(run) && i < |run|
    ensures Inv(run[i]) && run[i].deviceID == run[0].deviceID
  {
    hide Step, Enabled;
    if i == 0 {
    } else {
      Reachable(run, i - 1);
      assert StepAt(run, i - 1);
      var l :| Enabled(run[i - 1], l) && run[i] == Step(run[i - 1], l);
      StepInv(run[i - 1], l);
    }
  }

  // ------------------------------------------------------------------ what a call does

  // At most four writes, all to one installation of one device: that of the first target, which was the best of the
  // matching authenticated connections when it was chosen.
  lemma Retransmission(run: seq<State>, i: nat)
    requires IsRun(run) && i < |run|
    ensures var s := run[i];
      && |s.writes| <= MAX_ATTEMPTS
      && (s.writes != [] ==> BestTarget(s.choice, s.deviceID, s.writes[0].target))
      && (forall w :: w in s.writes ==> SameInstallation(w.target, s.writes[0].target))
      && (forall w :: w in s.writes && s.deviceID != "" ==> w.target.deviceID == s.deviceID)
  {
    Reachable(run, i);
  }

  // The table that the first target was chosen from was the connection table at an earlier moment of the run.
  lemma {:induction false} ChoiceWasReal(run: seq<State>, i: nat) returns (j: nat)
    requires IsRun(run) && i < |run| && run[i].call.bound.Some?
    ensures j < i && run[i].choice == run[j].conns && run[j].retry.Looking? && run[j].call.bound.None?
  {
    hide Step, Enabled, Inv;
    assert i > 0;
    assert StepAt(run, i - 1);
    var l :| Enabled(run[i - 1], l) && run[i] == Step(run[i - 1], l);
    ChoiceStep(run[i - 1], l);
    if run[i - 1].call.bound.None? {
      j := i - 1;
    } else {
      j := ChoiceWasReal(run, i - 1);
    }
  }

  lemma ChoiceStep(s: State, l: Label)
    requires Enabled(s, l) && Step(s, l).call.bound.Some?
    ensures if s.call.bound.None? then Step(s, l).choice == s.conns && s.retry.Looking? else Step(s, l).choice == s.choice
  {
  }

  // The connection that is registered under its id in the table, and let in.
  predicate RegisteredIn(conns: Table, c: Conn) {
    c.connectionID in conns && conns[c.connectionID] == c && c.authenticated
  }

  // At step j the retry under way chose c, from the table of that moment.
  ghost predicate ChoosesAt(run: seq<State>, j: nat, c: Conn)
    requires j + 1 < |run|
  {
    && (run[j].retry.Looking? || run[j].retry.Rebinding?)
    && run[j + 1].retry.Sending? && run[j + 1].retry.target == c
    && RegisteredIn(run[j].conns, c)
  }

  lemma ChosenStep(s: State, l: Label)
    requires Inv(s) && Enabled(s, l) && Step(s, l).retry.Sending? && !s.retry.Sending?
    ensures s.retry.Looking? || s.retry.Rebinding?
    ensures RegisteredIn(s.conns, Step(s, l).retry.target)
  {
  }

  lemma {:induction false} TargetWasChosen(run: seq<State>, i: nat) returns (j: nat)
    requires IsRun(run) && i < |run| && run[i].retry.Sending?
    ensures j < i && ChoosesAt(run, j, run[i].retry.target)
  {
    assert i > 0;
    var before := i - 1;
    Reachable(run, before);
    assert StepAt(run, before);
    var l :| Enabled(run[before], l) && run[before + 1] == Step(run[before], l);
    if run[before].retry.Sending? {
      assert run[i].retry == run[before].retry;
      j := TargetWasChosen(run, before);
    } else {
      ChosenStep(run[before], l);
      j := before;
    }
  }

  // Every write of a call, whichever retry made it, went to an authenticated connection that was registered under its id
  // in the connection table of the step that chose it.
  lemma {:induction false} WriteWasChosen(run: seq<State>, i: nat, w: nat) returns (j: nat)
    requires IsRun(run) && i < |run| && w < |run[i].writes|
    ensures j < i && ChoosesAt(run, j, run[i].writes[w].target)
  {
    assert i > 0;
    var before := i - 1;
    assert StepAt(run, before);
    var l :| Enabled(run[before], l) && run[before + 1] == Step(run[before], l);
    if w < |run[before].writes| {
      assert run[before].writes[w] == run[i].writes[w];
      j := WriteWasChosen(run, before, w);
    } else {
      j := TargetWasChosen(run, before);
    }
  }

  // Nothing is written once `finished` is set.
  lemma {:induction false} SilentAfterFinish(run: seq<State>, i: nat, j: nat)
    requires IsRun(run) && i <= j < |run| && run[i].call.finished
    ensures run[j].writes == run[i].writes && run[j].phase == run[i].phase && run[j].call.finished
    decreases j
  {
    hide Step, Enabled;
    Reachable(run, j);
    if i == j {
    } else {
      SilentAfterFinish(run, i, j - 1);
      Reachable(run, j - 1);
      assert StepAt(run, j - 1);
      var l :| Enabled(run[j - 1], l) && run[j] == Step(run[j - 1], l);
      SilentStep(run[j - 1], l);
    }
  }

  lemma SilentStep(s: State, l: Label)
    requires Inv(s) && Enabled(s, l) && s.call.finished
    ensures Step(s, l).writes == s.writes && Step(s, l).phase == s.phase && Step(s, l).call.finished
  {
  }

  // An expired call reports a timeout exactly if some write had succeeded when the verdict was read; one that reports
  // offline has been delivered all the same exactly if a later write succeeded.
  lemma VerdictExact(run: seq<State>, i: nat)
    requires IsRun(run) && i < |run| && Settled(run[i].phase) && !run[i].phase.status.Answered?
    ensures run[i].heard <= |run[i].writes|
    ensures run[i].phase.status == Timeout <==> SomeOk(run[i].writes[..run[i].heard])
    ensures run[i].phase.status == Offline ==> (run[i].call.delivered <==> SomeOk(run[i].writes[run[i].heard..]))
  {
    Reachable(run, i);
    var s := run[i];
    assert s.writes == s.writes[..s.heard] + s.writes[s.heard..];
    assert forall w :: w in s.writes <==> w in s.writes[..s.heard] || w in s.writes[s.heard..];
  }

  // `heard` is what the verdict heard: it is set by the verdict's step and stays.
  lemma {:induction false} HeardAtVerdict(run: seq<State>, i: nat) returns (j: nat)
    requires IsRun(run) && i < |run| && Settled(run[i].phase)
    ensures j < i && run[j].phase.Waiting? && Settled(run[j + 1].phase) && run[i].heard == |run[j].writes|
    ensures run[j + 1].phase.Deciding? && run[j + 1].phase.status == run[i].phase.status
  {
    hide Step, Enabled, Inv;
    assert i > 0;
    Reachable(run, i - 1);
    assert StepAt(run, i - 1);
    var l :| Enabled(run[i - 1], l) && run[i] == Step(run[i - 1], l);
    HeardStep(run[i - 1], l);
    if Settled(run[i - 1].phase) {
      j := HeardAtVerdict(run, i - 1);
    } else {
      j := i - 1;
    }
  }

  lemma HeardStep(s: State, l: Label)
    requires Inv(s) && Enabled(s, l) && Settled(Step(s, l).phase)
    ensures Settled(s.phase) ==> Step(s, l).heard == s.heard && Step(s, l).phase.status == s.phase.status
    ensures !Settled(s.phase) ==> s.phase.Waiting? && Step(s, l).phase.Deciding? && Step(s, l).heard == |s.writes|
  {
  }

  // ------------------------------------------------------------------ one retry

  // A whole retry with no change of the connection table in between; `target` is what h.target finds.
  ghost function Retried(s: State, trigger: Option<Conn>, target: Option<Conn>, ok: bool): State
    requires Enabled(s, Enter(trigger)) && IsTarget(s.conns, s.deviceID, target)
  {
    var looking := Step(s, Enter(trigger));
    if looking.retry.Idle? then looking
    else
      var looked := Step(looking, Look(target));
      if looked.retry.Idle? then looked
      else
        var found := if looked.retry.Rebinding? then Step(looked, Rebind) else looked;
        if found.retry.Idle? then found else Step(found, Send(ok))
  }

  // Where a retry is to write: a call that is not bound yet takes the best target, a bound one the connection that is now
  // registered for its installation.
  function Goal(s: State, target: Option<Conn>): Option<Conn> {
    if s.call.bound.None? then target else Reconnected(s.conns, s.call.bound.value)
  }

  // In every reachable state a retry writes exactly once, to its goal, if the call is not finished, fewer than four
  // attempts have been made, the trigger is of the bound installation and there is a goal; otherwise it writes nothing.
  lemma RetryExact(run: seq<State>, i: nat, trigger: Option<Conn>, target: Option<Conn>, ok: bool)
    requires IsRun(run) && i < |run|
    requires Enabled(run[i], Enter(trigger)) && IsTarget(run[i].conns, run[i].deviceID, target)
    ensures var s, goal := run[i], Goal(run[i], target);
      Retried(s, trigger, target, ok).writes ==
      if s.call.finished || s.call.attempts >= 4 || goal.None? then s.writes
      else if s.call.bound.Some? && trigger.Some? && !SameInstallation(trigger.value, s.call.bound.value) then s.writes
      else s.writes + [Write(goal.value, ok)]
    ensures Retried(run[i], trigger, target, ok).retry.Idle?
    ensures trigger.None? ==> Retried(run[i], trigger, target, ok).phase.Waiting?
    ensures |Retried(run[i], trigger, target, ok).writes| <= MAX_ATTEMPTS
  {
    hide TargetsOk, StatusOk, IsTarget;
    Reachable(run, i);
  }

  // A bound call is written to nobody while the connection registered under the bound id is absent, not authenticated or
  // of another device.
  lemma RetryNeedsPeer(run: seq<State>, i: nat, trigger: Option<Conn>, target: Option<Conn>, ok: bool)
    requires IsRun(run) && i < |run| && run[i].call.bound.Some?
    requires Enabled(run[i], Enter(trigger)) && IsTarget(run[i].conns, run[i].deviceID, target)
    requires var conns, bound := run[i].conns, run[i].call.bound.value;
      bound.connectionID in conns ==> !conns[bound.connectionID].authenticated || conns[bound.connectionID].deviceID != bound.deviceID
    ensures Retried(run[i], trigger, target, ok).writes == run[i].writes
  {
    RetryExact(run, i, trigger, target, ok);
  }

  // So with budget left, an authenticated reconnect of the bound installation gets the request again.
  lemma ReconnectResends(run: seq<State>, i: nat, trigger: Conn, target: Option<Conn>, ok: bool)
    requires IsRun(run) && i < |run| && run[i].retry.Idle? && IsTarget(run[i].conns, run[i].deviceID, target)
    requires !run[i].call.finished && run[i].call.attempts < MAX_ATTEMPTS && run[i].call.bound.Some?
    requires SameInstallation(trigger, run[i].call.bound.value) && trigger.authenticated
    requires trigger.connectionID in run[i].conns && run[i].conns[trigger.connectionID] == trigger
    ensures Retried(run[i], Some(trigger), target, ok).writes == run[i].writes + [Write(trigger, ok)]
  {
    RetryExact(run, i, Some(trigger), target, ok);
    assert Reconnected(run[i].conns, run[i].call.bound.value) == Some(trigger);
  }

  // ------------------------------------------------------------------ deliveries after the verdict

  ghost predicate StepsBy(run: seq<State>, n: nat, l: Label)
    requires n + 1 < |run|
  {
    Enabled(run[n], l) && run[n + 1] == Step(run[n], l)
  }

  // Between steps e and x one retry gets past its guard, finds a target and writes to it successfully.
  ghost predicate LateRetry(run: seq<State>, e: nat, x: nat, trigger: Conn)
    requires e < x && x + 1 < |run|
  {
    && StepsBy(run, e, Enter(Some(trigger))) && !Blocked(run[e].call, Some(trigger))
    && (forall n :: e < n <= x ==> !run[n].retry.Idle?)
    && run[x].retry.Sending? && StepsBy(run, x, Send(true))
  }

  ghost predicate DeliveredLate(run: seq<State>, v: nat, i: nat)
    requires i < |run|
  {
    exists e: nat, x: nat, t :: v < e < x < i && LateRetry(run, e, x, t)
  }

  // A call reported offline has been delivered all the same exactly if, after the verdict, a retry got past its guard (the
  // call not finished, attempts left, the installation the bound one, if any), found a target and wrote to it.
  lemma OfflineDeliveredExactly(run: seq<State>, i: nat) returns (v: nat)
    requires IsRun(run) && i < |run| && Settled(run[i].phase) && run[i].phase.status == Offline
    ensures v < i && StepsBy(run, v, Verdict) && !run[v].call.delivered
    ensures run[i].call.delivered <==> DeliveredLate(run, v, i)
  {
    v := VerdictStep(run, i);
    if run[i].call.delivered {
      var x := FirstDelivery(run, v + 1, i);
      var e, t := EnteredBefore(run, v + 1, x);
      assert LateRetry(run, e, x, t);
    }
    if DeliveredLate(run, v, i) {
      var e: nat, x: nat, t :| v < e < x < i && LateRetry(run, e, x, t);
      StaysDelivered(run, x + 1, i);
    }
  }

  lemma {:induction false} VerdictStep(run: seq<State>, i: nat) returns (v: nat)
    requires IsRun(run) && i < |run| && Settled(run[i].phase) && run[i].phase.status == Offline
    ensures v < i && StepsBy(run, v, Verdict) && !run[v].call.delivered
  {
    assert i > 0;
    v := i - 1;
    Reachable(run, v);
    assert StepAt(run, v);
    var l :| Enabled(run[v], l) && run[v + 1] == Step(run[v], l);
    HeardStep(run[v], l);
    if Settled(run[v].phase) { v := VerdictStep(run, v); }
  }

  lemma {:induction false} FirstDelivery(run: seq<State>, from: nat, i: nat) returns (x: nat)
    requires IsRun(run) && from <= i < |run| && !run[from].call.delivered && run[i].call.delivered
    ensures from <= x < i && run[x].retry.Sending? && StepsBy(run, x, Send(true))
    decreases i
  {
    x := i - 1;
    if run[x].call.delivered {
      x := FirstDelivery(run, from, x);
    } else {
      assert StepAt(run, x);
      var l :| Enabled(run[x], l) && run[x + 1] == Step(run[x], l);
      assert l == Send(true);
    }
  }

  // A retry that is under way began with an Enter that its guard let through.
  lemma {:induction false} EnteredBefore(run: seq<State>, from: nat, x: nat) returns (e: nat, trigger: Conn)
    requires IsRun(run) && from <= x < |run| && run[from].retry.Idle? && !run[x].retry.Idle? && Settled(run[from].phase)
    ensures from <= e < x && StepsBy(run, e, Enter(Some(trigger))) && !Blocked(run[e].call, Some(trigger))
    ensures forall n :: e < n <= x ==> !run[n].retry.Idle?
    decreases x
  {
    e := x - 1;
    if run[e].retry.Idle? {
      StaysSettled(run, from, e);
      assert StepAt(run, e);
      var l :| Enabled(run[e], l) && run[e + 1] == Step(run[e], l);
      assert l.Enter? && l.trigger.Some?;
      trigger := l.trigger.value;
    } else {
      e, trigger := EnteredBefore(run, from, e);
    }
  }

  lemma {:induction false} StaysSettled(run: seq<State>, from: nat, i: nat)
    requires IsRun(run) && from <= i < |run| && Settled(run[from].phase)
    ensures Settled(run[i].phase)
    decreases i
  {
    if from == i {
    } else {
      var n := i - 1;
      StaysSettled(run, from, n);
      Reachable(run, n);
      assert StepAt(run, n);
    }
  }

  lemma {:induction false} StaysDelivered(run: seq<State>, from: nat, i: nat)
    requires IsRun(run) && from <= i < |run| && run[from].call.delivered
    ensures run[i].call.delivered
    decreases i
  {
    if from == i {
    } else {
      var n := i - 1;
      StaysDelivered(run, from, n);
      assert StepAt(run, n);
    }
  }

  // Once the attempts are used up and no retry is under way, nothing is written any more: a call that is reported offline
  // after its fourth attempt is never delivered.
  lemma {:induction false} SpentIsSilent(run: seq<State>, v: nat, i: nat)
    requires IsRun(run) && v <= i < |run| && run[v].call.attempts >= MAX_ATTEMPTS && run[v].retry.Idle?
    ensures run[i].writes == run[v].writes && run[i].call.delivered == run[v].call.delivered
    ensures run[i].call.attempts >= MAX_ATTEMPTS && run[i].retry.Idle?
    decreases i
  {
    if i == v {
    } else {
      var n := i - 1;
      SpentIsSilent(run, v, n);
      assert StepAt(run, n);
    }
  }

  lemma OfflineAfterFourIsFinal(run: seq<State>, i: nat) returns (v: nat)
    requires IsRun(run) && i < |run| && Settled(run[i].phase) && run[i].phase.status == Offline
    ensures v < i && StepsBy(run, v, Verdict)
    ensures run[v].call.attempts == MAX_ATTEMPTS ==> !run[i].call.delivered
  {
    v := VerdictStep(run, i);
    if run[v].call.attempts == MAX_ATTEMPTS { SpentIsSilent(run, v, i); }
  }

  // The verdict and `finished` are two sections, and a write can still fall between them: a call may be reported offline
  // and yet be delivered.
  lemma OfflineYetDelivered(c: Conn) returns (run: seq<State>)
    requires c.authenticated
    ensures IsRun(run) && |run| > 0
    ensures var s := run[|run| - 1];
      s.phase == Returned(Offline) && s.writes == [Write(c, true)] && s.call.delivered
  {
    var conns: Table := map[c.connectionID := c];
    var s0 := Initial(c.deviceID, map[]);
    var s1 := Step(s0, Enter(None));
    var s2 := Step(s1, Look(None));
    var s3 := Step(s2, Verdict);
    var s4 := Step(s3, Hub(conns));
    var s5 := Step(s4, Enter(Some(c)));
    assert BestTarget(conns, c.deviceID, c) by { assert conns[c.connectionID] == c; }
    var s6 := Step(s5, Look(Some(c)));
    var s7 := Step(s6, Send(true));
    var s8 := Step(s7, Finish);
    run := [s0, s1, s2, s3, s4, s5, s6, s7, s8];
    forall i: nat | i + 1 < |run| ensures StepAt(run, i) {
      var labels := [Enter(None), Look(None), Verdict, Hub(conns), Enter(Some(c)), Look(Some(c)), Send(true), Finish];
      assert Enabled(run[i], labels[i]) && run[i + 1] == Step(run[i], labels[i]);
    }
  }

  // ------------------------------------------------------------------ the closure

  class ToolCall {
    const deviceID: string
    var bound: Option<Conn>
    var attempts: nat
    var delivered: bool
    var finished: bool

    ghost function Captured(): Call
      reads this
    {
      Call(bound, attempts, delivered, finished)
    }

    constructor (deviceID: string)
      ensures this.deviceID == deviceID && Captured() == Call(None, 0, false, false)
    {
      this.deviceID := deviceID;
      bound, attempts, delivered, finished := None, 0, false, false;
    }

    method Enters(trigger: Option<Conn>) returns (ok: bool)
      ensures ok == !Blocked(Captured(), trigger)
    {
      if finished || attempts >= 4 { return false; }
      if bound.Some? && trigger.Some? {
        if trigger.value.deviceID != bound.value.deviceID || trigger.value.connectionID != bound.value.connectionID { return false; }
      }
      return true;
    }

    // The first read of the table; if the call is already bound, its result is dropped.
    method Look(hub: DeviceHub.Hub) returns (target: Option<Conn>, ghost found: Option<Conn>)
      requires hub.Valid()
      modifies this
      ensures IsTarget(hub.connections, deviceID, found) && target == if old(bound).Some? then None else found
      ensures Captured() == if target.Some? then Attempted(old(Captured()), target.value) else old(Captured())
    {
      target := hub.Target(deviceID);
      found := target;
      if bound.Some? { return None, found; }
      if target.None? { return; }
      bound := target;
      attempts := attempts + 1;
    }

    // The second read, for a call that is bound.
    method Rebind(hub: DeviceHub.Hub) returns (target: Option<Conn>)
      requires hub.Valid() && bound.Some?
      modifies this
      ensures target == Reconnected(hub.connections, old(bound).value)
      ensures target.Some? ==> RegisteredIn(hub.connections, target.value) && SameInstallation(target.value, old(bound).value)
      ensures target.None? ==>
        forall c :: RegisteredIn(hub.connections, c) ==> !SameInstallation(c, old(bound).value)
      ensures Captured() == if target.Some? then Attempted(old(Captured()), target.value) else old(Captured())
    {
      target := None;
      var conns := hub.AuthenticatedConnections();
      var i := 0;
      while i < |conns|
        invariant 0 <= i <= |conns|
        invariant forall j :: 0 <= j < i ==> !SameInstallation(conns[j], bound.value)
      {
        if conns[i].deviceID == bound.value.deviceID && conns[i].connectionID == bound.value.connectionID {
          assert conns[i] in conns;
          target := Some(conns[i]);
          attempts := attempts + 1;
          return;
        }
        i := i + 1;
      }
      assert forall c :: c in conns ==> !SameInstallation(c, bound.value);
    }

    method Send(ok: bool)
      modifies this`delivered
      ensures Captured() == old(Captured()).(delivered := old(delivered) || ok)
    {
      if ok { delivered := true; }
    }

    method Verdict() returns (status: Status)
      ensures status == if delivered then Timeout else Offline
    {
      if delivered { return Timeout; }
      return Offline;
    }

    method Finish()
      modifies this`finished
      ensures Captured() == old(Captured()).(finished := true)
    {
      finished := true;
    }
  }
}
