/**
 * The event log of one agent operation as a value: every critical section of operation.go and llm.go that
 * numbers, buffers, queues or replays events is a function on `Op`. `Op.log` is the history of all events
 * ever issued; it is what the trimmed buffer, the hub queue and the replay are compared with.
 */
module EventLog {

  const EVENT_BUFFER_MAX: nat := 1000
  const EVENT_BUFFER_TRIM: nat := 500

  // How an event is routed. Every kind but the two executions goes to all subscribers.
  datatype Kind = Broadcast | ToolExecute | LlmExecute(callId: string, preferred: string)

  datatype Message = Message(id: int, kind: Kind, body: string)

  datatype Status = Unset | Running | Completed | Errored | Interrupted | Other(name: string)

  predicate IsTerminal(status: Status) {
    status.Completed? || status.Errored? || status.Interrupted?
  }

  datatype OpenCall = OpenCall(expiresAt: int, payload: Message)

  datatype Op = Op(
    log: seq<Message>,            // history: every event issued so far; the event counter is its length
    buffer: seq<Message>,
    open: map<string, OpenCall>,
    queue: seq<Message>,
    dispatch: bool,
    overflow: bool,
    status: Status,
    owner: string,
    sent: multiset<int>)          // ids of the events whose result channel has been sent to

  const NEW_OP: Op := Op([], [], map[], [], false, false, Unset, "", multiset{})

  // ------------------------------------------------------------------ buffer

  function Buffered(buffer: seq<Message>, m: Message): seq<Message> {
    var b := buffer + [m];
    if |b| > EVENT_BUFFER_MAX then b[|b| - EVENT_BUFFER_TRIM..] else b
  }

  // The buffer after issuing the events of log one by one.
  function BufferOf(log: seq<Message>): seq<Message> {
    if log == [] then [] else Buffered(BufferOf(log[..|log| - 1]), log[|log| - 1])
  }

  function Retained(n: nat): nat {
    if n <= EVENT_BUFFER_MAX then n else EVENT_BUFFER_TRIM + (n - EVENT_BUFFER_MAX - 1) % (EVENT_BUFFER_MAX - EVENT_BUFFER_TRIM + 1)
  }

  lemma RetainedBounds(n: nat)
    ensures n <= EVENT_BUFFER_TRIM ==> Retained(n) == n
    ensures EVENT_BUFFER_TRIM <= n ==> EVENT_BUFFER_TRIM <= Retained(n)
    ensures Retained(n) <= n && Retained(n) <= EVENT_BUFFER_MAX
  {
  }

  lemma RetainedStep(n: nat)
    ensures Retained(n + 1) == if Retained(n) < EVENT_BUFFER_MAX then Retained(n) + 1 else EVENT_BUFFER_TRIM
  {
    if n > EVENT_BUFFER_MAX { NextRemainder(n - EVENT_BUFFER_MAX - 1); }
  }

  lemma NextRemainder(k: nat)
    ensures (k + 1) % 501 == if k % 501 == 500 then 0 else k % 501 + 1
  {
    var q, r := k / 501, k % 501;
    if r == 500 { assert k + 1 == 501 * (q + 1); } else { assert k + 1 == 501 * q + (r + 1); }
  }

  function Window(log: seq<Message>): (w: seq<Message>) {
    RetainedBounds(|log|);
    log[|log| - Retained(|log|)..]
  }

  lemma WindowStep(log: seq<Message>, m: Message)
    ensures Buffered(Window(log), m) == Window(log + [m])
  {
    RetainedBounds(|log|);
    RetainedBounds(|log| + 1);
    RetainedStep(|log|);
  }

  // Whatever was issued, the buffer is exactly the last Retained(n) events.
  lemma {:induction false} RingShape(log: seq<Message>)
    ensures BufferOf(log) == log[|log| - Retained(|log|)..]
    ensures |BufferOf(log)| <= EVENT_BUFFER_MAX
    ensures |log| <= EVENT_BUFFER_TRIM ==> BufferOf(log) == log
    ensures EVENT_BUFFER_TRIM <= |log| ==> EVENT_BUFFER_TRIM <= |BufferOf(log)|
  {
    RetainedBounds(|log|);
    if log == [] {
    } else {
      var front := log[..|log| - 1];
      RingShape(front);
      WindowStep(front, log[|log| - 1]);
      assert front + [log[|log| - 1]] == log;
    }
  }

  // ------------------------------------------------------------------ well-formed operations

  // Event ids are the positions 1, 2, 3, ... in the log.
  ghost predicate Issued(log: seq<Message>) {
    forall i :: 0 <= i < |log| ==> log[i].id == i + 1
  }

  ghost predicate IsIssued(log: seq<Message>, m: Message) {
    1 <= m.id <= |log| && log[m.id - 1] == m
  }

  ghost predicate OpenWf(log: seq<Message>, open: map<string, OpenCall>) {
    forall k :: k in open ==> IsIssued(log, open[k].payload) && open[k].payload.kind.LlmExecute? && open[k].payload.kind.callId == k
  }

  ghost predicate QueueWf(log: seq<Message>, queue: seq<Message>) {
    |queue| <= |log| && |queue| <= EVENT_BUFFER_MAX && queue == log[|log| - |queue|..]
  }

  ghost predicate Wf(op: Op) {
    Issued(op.log) && op.buffer == Window(op.log) && OpenWf(op.log, op.open) && QueueWf(op.log, op.queue)
  }

  lemma NewOpWf()
    ensures Wf(NEW_OP)
  {
  }

  // ------------------------------------------------------------------ publishing

  function Ids(ms: seq<Message>): multiset<int> {
    if ms == [] then multiset{} else Ids(ms[..|ms| - 1]) + multiset{ms[|ms| - 1].id}
  }

  // One nextEventIDLocked / bufferLocked / queueHubEventLocked sequence.
  function Publish(op: Op, kind: Kind, body: string): Op {
    var m := Message(|op.log| + 1, kind, body);
    var full := |op.queue| >= EVENT_BUFFER_MAX;
    op.(log := op.log + [m],
        buffer := Buffered(op.buffer, m),
        queue := if full then [m] else op.queue + [m],
        overflow := op.overflow || full,
        sent := if full then op.sent + Ids(op.queue) else op.sent,
        dispatch := true)
  }

  lemma PublishWf(op: Op, kind: Kind, body: string)
    requires Wf(op)
    ensures Wf(Publish(op, kind, body)) && op.log == Publish(op, kind, body).log[..|op.log|]
  {
    var op' := Publish(op, kind, body);
    WindowStep(op.log, Message(|op.log| + 1, kind, body));
    forall k | k in op'.open ensures IsIssued(op'.log, op'.open[k].payload) {
      assert IsIssued(op.log, op.open[k].payload);
    }
  }

  // The three outcomes of the drainer's own section: discard after an overflow, stop, or take the next event.
  function ClearOverflow(op: Op): Op {
    op.(overflow := false, queue := [], sent := op.sent + Ids(op.queue))
  }

  function StopDraining(op: Op): Op {
    op.(dispatch := false)
  }

  function Pop(op: Op): Op
    requires op.queue != []
  {
    op.(queue := op.queue[1..])
  }

  function PruneOpen(open: map<string, OpenCall>, status: Status, now: int): map<string, OpenCall> {
    map k | k in open && !(IsTerminal(status) || open[k].expiresAt <= now) :: open[k]
  }

  // ------------------------------------------------------------------ replay

  ghost predicate Increasing(ms: seq<Message>) {
    forall i, j :: 0 <= i < j < |ms| ==> ms[i].id < ms[j].id
  }

  // The order in which replays and parked events are sorted.
  predicate Earlier(a: Message, b: Message) {
    a.id < b.id
  }

  predicate Replayable(open: map<string, OpenCall>, m: Message) {
    m.kind.LlmExecute? ==> m.kind.callId in open
  }

  predicate IsOpenAttempt(open: map<string, OpenCall>, m: Message) {
    m.kind.LlmExecute? && m.kind.callId in open && open[m.kind.callId].payload == m
  }

  predicate Kept(trimmed: int, open: map<string, OpenCall>, since: int, m: Message) {
    m.id > since && ((m.id > trimmed && Replayable(open, m)) || IsOpenAttempt(open, m))
  }

  // What a resume after `since` shows of the full log, when the first `trimmed` events survive only as open attempts.
  function Replay(log: seq<Message>, trimmed: int, open: map<string, OpenCall>, since: int): seq<Message> {
    if log == [] then []
    else
      var r := Replay(log[..|log| - 1], trimmed, open, since);
      var m := log[|log| - 1];
      if Kept(trimmed, open, since, m) then r + [m] else r
  }

  lemma {:induction false} ReplayFacts(log: seq<Message>, trimmed: int, open: map<string, OpenCall>, since: int)
    requires Issued(log)
    ensures Increasing(Replay(log, trimmed, open, since))
    ensures forall m :: m in Replay(log, trimmed, open, since) <==> m in log && Kept(trimmed, open, since, m)
  {
    if log == [] {
    } else {
      var front, last := log[..|log| - 1], log[|log| - 1];
      ReplayFacts(front, trimmed, open, since);
      assert forall m :: m in log <==> m in front || m == last;
      var r := Replay(front, trimmed, open, since);
      forall i | 0 <= i < |r| ensures r[i].id < last.id {
        assert r[i] in front;
      }
    }
  }

  // A strictly increasing sequence is determined by its elements.
  lemma {:induction false} IncreasingUnique(a: seq<Message>, b: seq<Message>)
    requires Increasing(a) && Increasing(b)
    requires forall m :: m in a <==> m in b
    ensures a == b
  {
    assert |b| > 0 ==> b[0] in b;
    if a == [] {
    } else {
      assert a[0] in b;
      assert b[0] in a;
      assert a[0] == b[0];
      assert a == [a[0]] + a[1..] && b == [b[0]] + b[1..];
      forall m ensures m in a[1..] <==> m in b[1..] {
        if m in a[1..] { assert m in a && m.id > a[0].id; assert m in b; }
        if m in b[1..] { assert m in b && m.id > b[0].id; assert m in a; }
      }
      IncreasingUnique(a[1..], b[1..]);
    }
  }

  function Trimmed(op: Op): int {
    |op.log| - |op.buffer|
  }

  function Gap(op: Op, since: int): bool {
    if |op.buffer| > 0 then op.buffer[0].id > since + 1 else |op.log| > since
  }

  function Collected(op: Op, since: int): seq<Message> {
    Replay(op.log, Trimmed(op), op.open, since)
  }

  // A gap is reported exactly when an event after `since` has been trimmed, or the resume id is negative.
  lemma GapExact(op: Op, since: int)
    requires Wf(op)
    ensures Gap(op, since) <==> Trimmed(op) > since
    ensures Gap(op, since) <==> since < 0 || exists i :: 0 <= i < |op.log| && op.log[i] !in op.buffer && op.log[i].id > since
  {
    GapIsTrimmed(op, since);
    forall i | 0 <= i < |op.log| ensures op.log[i] !in op.buffer <==> i < Trimmed(op) {
      TrimmedExact(op, i);
    }
    hide Retained, Gap;
    if Trimmed(op) > since && since >= 0 {
      assert op.log[since].id == since + 1;
    }
  }

  lemma GapIsTrimmed(op: Op, since: int)
    requires Wf(op)
    ensures Gap(op, since) <==> Trimmed(op) > since
  {
    RetainedBounds(|op.log|);
    hide Retained;
  }

  lemma TrimmedExact(op: Op, i: nat)
    requires Wf(op) && i < |op.log|
    ensures op.log[i] !in op.buffer <==> i < Trimmed(op)
  {
    RetainedBounds(|op.log|);
    hide Retained;
    if i >= Trimmed(op) {
      assert op.log[i] == op.buffer[i - Trimmed(op)];
    }
  }

  // Without a gap the replay is the same filter over the entire unbounded log.
  lemma {:induction false} ReplayIgnoresTrimming(log: seq<Message>, trimmed: int, open: map<string, OpenCall>, since: int)
    requires trimmed <= since
    ensures Replay(log, trimmed, open, since) == Replay(log, 0, open, since)
      || since < 0
  {
    if log == [] {
    } else {
      ReplayIgnoresTrimming(log[..|log| - 1], trimmed, open, since);
    }
  }

  lemma NoGapReplaysLog(op: Op, since: int)
    requires Wf(op) && !Gap(op, since)
    ensures since >= 0
    ensures Collected(op, since) == Replay(op.log, 0, op.open, since)
    ensures forall m :: m in op.log && m.id > since && !m.kind.LlmExecute? ==> m in Collected(op, since)
  {
    GapExact(op, since);
    RetainedBounds(|op.log|);
    ReplayIgnoresTrimming(op.log, Trimmed(op), op.open, since);
    ReplayFacts(op.log, 0, op.open, since);
  }

  // ------------------------------------------------------------------ runs of critical sections

  datatype Command =
    | Push(kind: Kind, body: string)        // pushEvent, broadcastToolExecute
    | Ask(body: string)                     // requestConfirmation, requestInput
    | End(status: Status, body: string)     // handleSessionEnd, the ending section of fireWatchdog
    | Update(status: Status, body: string)  // updateStatus
    | Execute(callId: string, preferred: string, expiresAt: int, body: string)
    | Cancel(callId: string, body: string)
    | Close(callId: string)
    | Prune(now: int)                       // the start of every collectReplay
    | Init(owner: string)

  function Ended(op: Op, status: Status, body: string): Op {
    Publish(op.(status := status), Broadcast, body)
  }

  function Closed(op: Op, k: string): Op {
    op.(open := op.open - {k})
  }

  function Cancelled(op: Op, k: string, body: string): Op {
    Publish(Closed(op, k), Broadcast, body)
  }

  function Executed(op: Op, k: string, preferred: string, expiresAt: int, body: string): Op {
    if IsTerminal(op.status) then op
    else
      var op' := Publish(Closed(op, k), LlmExecute(k, preferred), body);
      op'.(open := op'.open[k := OpenCall(expiresAt, op'.log[|op.log|])])
  }

  function Pruned(op: Op, now: int): Op {
    op.(open := PruneOpen(op.open, op.status, now))
  }

  function Begun(op: Op, owner: string): Op {
    op.(owner := owner, status := Running)
  }

  function Apply(op: Op, cmd: Command): Op {
    match cmd
    case Push(kind, body) => Publish(op, kind, body)
    case Ask(body) => Publish(op, Broadcast, body)
    case End(status, body) => Ended(op, status, body)
    case Update(status, body) => Ended(op, status, body)
    case Execute(k, preferred, expiresAt, body) => Executed(op, k, preferred, expiresAt, body)
    case Cancel(k, body) => Cancelled(op, k, body)
    case Close(k) => Closed(op, k)
    case Prune(now) => Pruned(op, now)
    case Init(owner) => Begun(op, owner)
  }

  function Run(op: Op, cmds: seq<Command>): Op
    decreases |cmds|
  {
    if cmds == [] then op else Run(Apply(op, cmds[0]), cmds[1..])
  }

  lemma ApplyWf(op: Op, cmd: Command)
    requires Wf(op)
    ensures Wf(Apply(op, cmd))
    ensures |op.log| <= |Apply(op, cmd).log| && op.log == Apply(op, cmd).log[..|op.log|]
  {
    hide Window, Buffered, Retained, Ids, QueueWf, Issued, Executed;
    match cmd
    case Push(kind, body) => PublishWf(op, kind, body);
    case Ask(body) => PublishWf(op, Broadcast, body);
    case End(status, body) => PublishWf(op.(status := status), Broadcast, body);
    case Update(status, body) => PublishWf(op.(status := status), Broadcast, body);
    case Execute(k, preferred, expiresAt, body) => ExecuteWf(op, k, preferred, expiresAt, body);
    case Cancel(k, body) => PublishWf(Closed(op, k), Broadcast, body);
    case Close(k) =>
    case Prune(now) =>
    case Init(owner) =>
  }

  lemma ExecuteWf(op: Op, k: string, preferred: string, expiresAt: int, body: string)
    requires Wf(op)
    ensures var op' := Executed(op, k, preferred, expiresAt, body);
      Wf(op') && |op.log| <= |op'.log| && op.log == op'.log[..|op.log|]
  {
    hide Window, Buffered, Retained, Ids, QueueWf, Issued;
    if !IsTerminal(op.status) { PublishWf(Closed(op, k), LlmExecute(k, preferred), body); }
  }

  lemma {:induction false} RunWf(op: Op, cmds: seq<Command>)
    requires Wf(op)
    ensures Wf(Run(op, cmds))
    ensures |op.log| <= |Run(op, cmds).log| && op.log == Run(op, cmds).log[..|op.log|]
    decreases |cmds|
  {
    if cmds == [] {
    } else {
      ApplyWf(op, cmds[0]);
      RunWf(Apply(op, cmds[0]), cmds[1..]);
    }
  }

  // ------------------------------------------------------------------ LLM attempts

  // Whether the attempt open under k outlives cmd: nothing names k, and no prune meets an ended operation or the deadline.
  predicate Spares(op: Op, cmd: Command, k: string)
    requires k in op.open
  {
    match cmd
    case Execute(c, _, _, _) => c != k || IsTerminal(op.status)
    case Cancel(c, _) => c != k
    case Close(c) => c != k
    case Prune(now) => !IsTerminal(op.status) && now < op.open[k].expiresAt
    case _ => true
  }

  predicate SparesAll(op: Op, cmds: seq<Command>, k: string)
    requires k in op.open
    decreases |cmds|
  {
    cmds == [] ||
    (Spares(op, cmds[0], k) && k in Apply(op, cmds[0]).open && SparesAll(Apply(op, cmds[0]), cmds[1..], k))
  }

  predicate Holds(op: Op, k: string, call: OpenCall) {
    k in op.open && op.open[k] == call
  }

  // A dropped attempt never comes back: a new attempt for the same call has a new id.
  lemma {:induction false} DroppedForGood(op: Op, cmds: seq<Command>, k: string, call: OpenCall)
    requires !Holds(op, k, call) && call.payload.id <= |op.log|
    ensures !Holds(Run(op, cmds), k, call)
    decreases |cmds|
  {
    if cmds == [] {
    } else {
      StepDrops(op, cmds[0], k, call);
      DroppedForGood(Apply(op, cmds[0]), cmds[1..], k, call);
    }
  }

  lemma StepDrops(op: Op, cmd: Command, k: string, call: OpenCall)
    requires !Holds(op, k, call) && call.payload.id <= |op.log|
    ensures !Holds(Apply(op, cmd), k, call) && |op.log| <= |Apply(op, cmd).log|
  {
  }

  lemma StepSpares(op: Op, cmd: Command, k: string)
    requires k in op.open && op.open[k].payload.id <= |op.log|
    ensures Holds(Apply(op, cmd), k, op.open[k]) <==> Spares(op, cmd, k)
  {
  }

  // However much is published and trimmed, an attempt stays open exactly while every command spares it.
  lemma {:induction false} AttemptSurvival(op: Op, cmds: seq<Command>, k: string)
    requires Wf(op) && k in op.open
    ensures Holds(Run(op, cmds), k, op.open[k]) <==> SparesAll(op, cmds, k)
    decreases |cmds|
  {
    if cmds == [] {
    } else {
      var op' := Apply(op, cmds[0]);
      ApplyWf(op, cmds[0]);
      assert IsIssued(op.log, op.open[k].payload);
      StepSpares(op, cmds[0], k);
      if Spares(op, cmds[0], k) {
        AttemptSurvival(op', cmds[1..], k);
      } else {
        DroppedForGood(op', cmds[1..], k, op.open[k]);
      }
    }
  }

  // Every surviving attempt after `since` is in the replay, at exactly one place.
  lemma OpenAttemptReplayed(op: Op, cmds: seq<Command>, k: string, since: int)
    requires Wf(op) && k in op.open && SparesAll(op, cmds, k)
    requires op.open[k].payload.id > since
    ensures exists i :: 0 <= i < |Collected(Run(op, cmds), since)| && Collected(Run(op, cmds), since)[i] == op.open[k].payload
    ensures forall i, j :: 0 <= i < j < |Collected(Run(op, cmds), since)| ==>
      Collected(Run(op, cmds), since)[i].id != Collected(Run(op, cmds), since)[j].id
  {
    var op' := Run(op, cmds);
    RunWf(op, cmds);
    AttemptSurvival(op, cmds, k);
    var m := op.open[k].payload;
    assert IsIssued(op'.log, m);
    assert m in op'.log;
    ReplayFacts(op'.log, Trimmed(op'), op'.open, since);
    assert m in Collected(op', since);
  }

  // Every llm_execute replayed belongs to a call that is open, unexpired and of a running operation.
  lemma ReplayedAttemptIsOpen(op: Op, now: int, since: int, m: Message)
    requires Wf(op)
    requires m in Collected(Pruned(op, now), since) && m.kind.LlmExecute?
    ensures m.kind.callId in op.open && op.open[m.kind.callId].expiresAt > now && !IsTerminal(op.status)
  {
    var op' := Pruned(op, now);
    ReplayFacts(op'.log, Trimmed(op'), op'.open, since);
  }

  predicate Reopens(op: Op, cmd: Command, k: string) {
    cmd.Execute? && cmd.callId == k && !IsTerminal(op.status)
  }

  predicate NeverReopened(op: Op, cmds: seq<Command>, k: string)
    decreases |cmds|
  {
    cmds == [] || (!Reopens(op, cmds[0], k) && NeverReopened(Apply(op, cmds[0]), cmds[1..], k))
  }

  lemma {:induction false} StaysClosed(op: Op, cmds: seq<Command>, k: string)
    requires k !in op.open && NeverReopened(op, cmds, k)
    ensures k !in Run(op, cmds).open
    decreases |cmds|
  {
    if cmds == [] {
    } else {
      StaysClosed(Apply(op, cmds[0]), cmds[1..], k);
    }
  }

  // Once cancelled or closed, a call is never replayed again unless it is executed again, even while it is still buffered.
  lemma ClosedNeverReplayed(op: Op, cmds: seq<Command>, close: Command, k: string, since: int, m: Message)
    requires Wf(op)
    requires close == Close(k) || (close.Cancel? && close.callId == k)
    requires NeverReopened(Apply(op, close), cmds, k)
    requires m.kind.LlmExecute? && m.kind.callId == k
    ensures m !in Collected(Run(Apply(op, close), cmds), since)
  {
    var op' := Run(Apply(op, close), cmds);
    ApplyWf(op, close);
    RunWf(Apply(op, close), cmds);
    StaysClosed(Apply(op, close), cmds, k);
    ReplayFacts(op'.log, Trimmed(op'), op'.open, since);
  }
}
