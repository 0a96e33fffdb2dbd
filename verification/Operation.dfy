/**
 * The operation object of operation.go and llm.go: its fields and the critical sections that change them.
 * Every method is one section under the operation lock and is proved against the functions of EventLog (on `State()`)
 * and Watchdog (on `Clock()`).
 */
module Operation {
  import opened Wrappers
  import opened EventLog
  import Sorting
  import W = Watchdog

  datatype DrainStep = CloseSubscribers | Stopped | Take(event: Message)

  // ---------------------------------------------------------------- steps of CollectReplay

  ghost predicate DistinctIds(ms: seq<Message>) {
    forall i, j :: 0 <= i < j < |ms| ==> ms[i].id != ms[j].id
  }

  method BufferedAfter(buffer: seq<Message>, open: map<string, OpenCall>, since: int) returns (payloads: seq<Message>)
    requires Increasing(buffer)
    ensures DistinctIds(payloads)
    ensures forall m :: m in payloads <==> m in buffer && m.id > since && Replayable(open, m)
  {
    payloads := [];
    var i := 0;
    while i < |buffer|
      invariant 0 <= i <= |buffer| && Increasing(payloads)
      invariant forall m :: m in payloads <==> m in buffer[..i] && m.id > since && Replayable(open, m)
    {
      var m := buffer[i];
      assert buffer[..i + 1] == buffer[..i] + [m];
      if m.id > since && Replayable(open, m) {
        forall j | 0 <= j < |payloads| ensures payloads[j].id < m.id {
          assert payloads[j] in buffer[..i];
        }
        payloads := payloads + [m];
      }
      i := i + 1;
    }
    assert buffer[..i] == buffer;
  }

  // Open calls after `since` whose id is not among the buffered payloads, apart from those still to be visited.
  ghost predicate Unseen(open: map<string, OpenCall>, m: Message, todo: set<string>, seen: set<int>, since: int) {
    IsOpenAttempt(open, m) && m.kind.callId !in todo && m.id > since && m.id !in seen
  }

  // Adds the open calls after `since` that the buffer no longer holds.
  method WithOpenCalls(ghost op: Op, buffered: seq<Message>, open: map<string, OpenCall>, since: int) returns (payloads: seq<Message>)
    requires Wf(op) && open == op.open && DistinctIds(buffered)
    requires forall m :: m in buffered <==> m in op.buffer && m.id > since && Replayable(open, m)
    ensures DistinctIds(payloads)
    ensures forall m :: m in payloads <==> m in op.log && Kept(Trimmed(op), open, since, m)
  {
    hide Wf, Kept, Replayable;
    OpenAttempts(op);
    payloads := buffered;
    var seen := set m | m in buffered :: m.id;
    AllLogged(op, buffered);
    var todo := open.Keys;
    while todo != {}
      invariant todo <= open.Keys && DistinctIds(payloads)
      invariant forall m :: m in payloads <==> (m in buffered || Unseen(open, m, todo, seen, since))
      decreases |todo|
    {
      var k :| k in todo;
      todo := todo - {k};
      var m := open[k].payload;
      assert IsIssued(op.log, m) && m.kind.LlmExecute? && m.kind.callId == k;
      if m.id > since && m.id !in seen {
        assert m !in payloads;
        assert forall p :: p in payloads ==> IsIssued(op.log, p);
        assert forall j :: 0 <= j < |payloads| ==> payloads[j] in payloads;
        payloads := payloads + [m];
      }
    }
    AllKept(op, payloads, buffered, seen, since);
  }

  lemma BufferIncreases(op: Op)
    requires Wf(op)
    ensures Increasing(op.buffer)
  {
    RetainedBounds(|op.log|);
  }

  lemma OpenAttempts(op: Op)
    requires Wf(op)
    ensures forall k :: k in op.open ==>
      IsIssued(op.log, op.open[k].payload) && op.open[k].payload.kind.LlmExecute? && op.open[k].payload.kind.callId == k
  {
  }

  lemma AllLogged(op: Op, ms: seq<Message>)
    requires Wf(op) && forall m :: m in ms ==> m in op.buffer
    ensures forall m :: m in ms ==> IsIssued(op.log, m)
  {
    RetainedBounds(|op.log|);
    assert forall m :: m in op.buffer ==> m in op.log;
  }

  lemma AllKept(op: Op, payloads: seq<Message>, buffered: seq<Message>, seen: set<int>, since: int)
    requires Wf(op)
    requires forall m :: m in buffered <==> m in op.buffer && m.id > since && Replayable(op.open, m)
    requires seen == set m | m in buffered :: m.id
    requires forall m :: m in payloads <==> (m in buffered || Unseen(op.open, m, {}, seen, since))
    ensures forall m :: m in payloads <==> m in op.log && Kept(Trimmed(op), op.open, since, m)
  {
    RetainedBounds(|op.log|);
    AllLogged(op, buffered);
    var trimmed := Trimmed(op);
    assert forall m :: m in op.buffer <==> m in op.log && m.id > trimmed;
    forall m ensures m in payloads <==> m in op.log && Kept(trimmed, op.open, since, m) {
      if IsOpenAttempt(op.open, m) {
        assert IsIssued(op.log, m);
        assert m in op.log;
      }
    }
  }

  lemma SortedReplay(op: Op, payloads: seq<Message>, since: int)
    requires Wf(op) && DistinctIds(payloads)
    requires forall m :: m in payloads <==> m in op.log && Kept(Trimmed(op), op.open, since, m)
    ensures Sorting.Stable(payloads, Earlier) == Collected(op, since)
  {
    SortedDistinct(payloads);
    Sorting.SameElements(payloads, Earlier);
    ReplayFacts(op.log, Trimmed(op), op.open, since);
    IncreasingUnique(Sorting.Stable(payloads, Earlier), Collected(op, since));
  }

  lemma SortedDistinct(s: seq<Message>)
    requires DistinctIds(s)
    ensures Increasing(Sorting.Stable(s, Earlier))
  {
    hide Sorting.Stable;
    var r := Sorting.Stable(s, Earlier);
    Sorting.StableSorted(s, Earlier);
    Sorting.StableDistinct(s, Earlier);
    Sorting.SameElements(s, Earlier);
    forall i, j | 0 <= i < j < |r| ensures r[i].id < r[j].id {
      assert !Earlier(r[j], r[i]);
      assert r[i] in s && r[j] in s;
    }
  }

  lemma BufferedLast(buffer: seq<Message>, m: Message)
    ensures Buffered(buffer, m) != [] && Buffered(buffer, m)[|Buffered(buffer, m)| - 1] == m
  {
  }

  lemma BegunIs(op: Op, owner: string)
    ensures Begun(op, owner) == op.(owner := owner, status := Running)
  {
  }

  // ---------------------------------------------------------------- the operation object

  class Operation {
    var eventBuffer: seq<Message>
    var eventCounter: int
    var hubDispatch: bool
    var hubOverflow: bool
    var hubQueue: seq<Message>
    var openLLM: map<string, OpenCall>
    var status: Status
    var userID: string
    var hetero: bool
    var lastEventAt: Option<int>
    var watchdog: W.Timer
    var cleanupTimer: W.Timer
    var sent: multiset<int>        // result channels that have been sent to, by event id
    ghost var log: seq<Message>    // every event ever issued

    ghost function State(): Op
      reads this
    {
      Op(log, eventBuffer, openLLM, hubQueue, hubDispatch, hubOverflow, status, userID, sent)
    }

    ghost function Clock(): W.Watch
      reads this
    {
      W.Watch(status, hetero, lastEventAt, watchdog, cleanupTimer)
    }

    // The event counter is the number of events issued.
    ghost predicate Counted()
      reads this
    {
      eventCounter == |log|
    }

    // Kept by every section: each leaves `State()` as one of EventLog's commands does, and those keep Wf (EventLog.ApplyWf).
    ghost predicate Valid()
      reads this
    {
      Counted() && Wf(State())
    }

    // One event has been issued: it is numbered after the others, carries this kind and body, and is the newest in the log,
    // in the replay buffer and in the hub queue.
    ghost predicate HasIssued(before: seq<Message>, kind: Kind, body: string)
      reads this
    {
      var m := Message(|before| + 1, kind, body);
      && log == before + [m]
      && eventBuffer != [] && eventBuffer[|eventBuffer| - 1] == m
      && hubQueue != [] && hubQueue[|hubQueue| - 1] == m
    }

    constructor ()
      ensures Valid() && State() == NEW_OP && Clock() == W.START.w
    {
      hide Wf;
      eventBuffer, eventCounter, hubQueue, log := [], 0, [], [];
      hubDispatch, hubOverflow := false, false;
      openLLM, sent := map[], multiset{};
      status, userID, hetero := Unset, "", false;
      lastEventAt, watchdog, cleanupTimer := None, W.NoTimer, W.NoTimer;
      new;
      NewOpWf();
    }

    // -------------------------------------------------------------- publishing

    method NextEventID() returns (id: int)
      modifies this`eventCounter
      ensures eventCounter == old(eventCounter) + 1 && id == eventCounter
    {
      eventCounter := eventCounter + 1;
      id := eventCounter;
    }

    method BufferLocked(m: Message)
      modifies this`eventBuffer, this`log
      ensures log == old(log) + [m]
      ensures eventBuffer == Buffered(old(eventBuffer), m)
    {
      log := log + [m];
      eventBuffer := eventBuffer + [m];
      if |eventBuffer| > EVENT_BUFFER_MAX {
        eventBuffer := eventBuffer[|eventBuffer| - EVENT_BUFFER_TRIM..];
      }
    }

    // Answers 0 on the result channel of every event that is dropped from the queue.
    method DiscardQueue()
      modifies this`hubQueue, this`sent
      ensures hubQueue == [] && sent == old(sent) + Ids(old(hubQueue))
    {
      var i := 0;
      while i < |hubQueue|
        invariant 0 <= i <= |hubQueue| && hubQueue == old(hubQueue)
        invariant sent == old(sent) + Ids(hubQueue[..i])
      {
        sent := sent + multiset{hubQueue[i].id};
        assert hubQueue[..i + 1][..i] == hubQueue[..i];
        i := i + 1;
      }
      assert hubQueue[..i] == hubQueue;
      hubQueue := [];
    }

    // Returns whether a drainer goroutine is started.
    method QueueHubEvent(m: Message) returns (spawn: bool)
      modifies this`hubQueue, this`hubOverflow, this`hubDispatch, this`sent
      ensures spawn == !old(hubDispatch) && hubDispatch
      ensures hubOverflow == old(hubOverflow || |hubQueue| >= EVENT_BUFFER_MAX)
      ensures hubQueue == if old(|hubQueue| >= EVENT_BUFFER_MAX) then [m] else old(hubQueue) + [m]
      ensures sent == if old(|hubQueue| >= EVENT_BUFFER_MAX) then old(sent + Ids(hubQueue)) else old(sent)
    {
      if |hubQueue| >= EVENT_BUFFER_MAX {
        DiscardQueue();
        hubOverflow := true;
      }
      hubQueue := hubQueue + [m];
      spawn := !hubDispatch;
      hubDispatch := true;
    }

    method PublishLocked(kind: Kind, body: string) returns (m: Message, spawn: bool)
      requires Counted()
      modifies this`eventCounter, this`eventBuffer, this`log, this`hubQueue, this`hubOverflow, this`hubDispatch, this`sent
      ensures Counted() && State() == Publish(old(State()), kind, body)
      ensures m == log[|log| - 1] && spawn == !old(hubDispatch)
      ensures HasIssued(old(log), kind, body)
    {
      hide Wf, Buffered, Ids;
      var id := NextEventID();
      m := Message(id, kind, body);
      BufferLocked(m);
      BufferedLast(old(eventBuffer), m);
      spawn := QueueHubEvent(m);
    }

    // -------------------------------------------------------------- timers

    method ScheduleWatchdog(now: int)
      modifies this`watchdog
      ensures Clock() == W.Schedule(old(Clock()), now)
    {
      if lastEventAt.None? || IsTerminal(status) { return; }
      var window := if hetero then W.HETERO_WINDOW else W.IDLE_WINDOW;
      var due := lastEventAt.value + window;
      var delay := due - now;
      if delay < 0 { delay := 0; }
      watchdog := W.Armed(now + delay);
    }

    method ScheduleCleanup(now: int)
      modifies this`watchdog, this`cleanupTimer
      ensures Clock() == W.ScheduleCleanup(old(Clock()), now)
    {
      watchdog := W.NoTimer;
      cleanupTimer := W.Armed(now + W.CLEANUP_DELAY);
    }

    // -------------------------------------------------------------- backend requests

    method InitOp(user: string, meta: Option<bool>, now: int)
      requires Counted()
      modifies this
      ensures Counted() && State() == Begun(old(State()), user)
      ensures Clock() == W.Begin(old(Clock()), meta, now)
      ensures userID == user && status == Running && lastEventAt == Some(now) && log == old(log)
      ensures hetero == if meta.Some? then meta.value else old(hetero)
    {
      hide Wf, W.Begin, W.Schedule, Begun;
      userID, status := user, Running;
      BegunIs(old(State()), user);
      if meta.Some? { hetero := meta.value; }
      cleanupTimer := W.NoTimer;
      lastEventAt := Some(now);
      W.BeginIs(old(Clock()), meta, now);
      ScheduleWatchdog(now);
    }

    // pushEvent and broadcastToolExecute.
    method PushEvent(kind: Kind, body: string, now: int) returns (spawn: bool)
      requires Counted()
      modifies this
      ensures Counted() && State() == Publish(old(State()), kind, body)
      ensures Clock() == W.Touch(old(Clock()), now) && spawn == !old(hubDispatch)
      ensures HasIssued(old(log), kind, body) && lastEventAt == Some(now) && status == old(status)
    {
      hide Publish, Wf, Buffered, Ids;
      var m;
      m, spawn := PublishLocked(kind, body);
      lastEventAt := Some(now);
      ScheduleWatchdog(now);
    }

    method HandleSessionEnd(end: Status, body: string, now: int) returns (spawn: bool)
      requires Counted()
      modifies this
      ensures Counted() && State() == Ended(old(State()), end, body)
      ensures Clock() == W.SessionEnd(old(Clock()), end, now) && spawn == !old(hubDispatch)
      ensures HasIssued(old(log), Broadcast, body) && status == end && lastEventAt == old(lastEventAt)
    {
      hide Publish, Wf, Buffered, Ids;
      status := end;
      assert State() == old(State()).(status := end);
      var m;
      m, spawn := PublishLocked(Broadcast, body);
      ScheduleCleanup(now);
    }

    method UpdateStatus(next: Status, body: string, now: int) returns (spawn: bool)
      requires Counted()
      modifies this
      ensures Counted() && State() == Ended(old(State()), next, body)
      ensures Clock() == W.Update(old(Clock()), next, now) && spawn == !old(hubDispatch)
      ensures HasIssued(old(log), Broadcast, body) && status == next && lastEventAt == Some(now)
    {
      hide Publish, Wf, Buffered, Ids;
      status := next;
      assert State() == old(State()).(status := next);
      var m;
      m, spawn := PublishLocked(Broadcast, body);
      lastEventAt := Some(now);
      assert Clock() == old(Clock()).(status := next, lastEventAt := Some(now));
      ScheduleWatchdog(now);
      if IsTerminal(next) { ScheduleCleanup(now); }
    }

    // requestConfirmation and requestInput: no activity is recorded.
    method AskClient(body: string) returns (spawn: bool)
      requires Counted()
      modifies this
      ensures Counted() && State() == Publish(old(State()), Broadcast, body)
      ensures Clock() == old(Clock()) && spawn == !old(hubDispatch)
      ensures HasIssued(old(log), Broadcast, body)
    {
      hide Publish, Wf, Buffered, Ids;
      var m;
      m, spawn := PublishLocked(Broadcast, body);
    }

    method LlmExecute(callId: string, preferred: string, expiresAt: int, body: string, now: int) returns (accepted: bool)
      requires Counted()
      modifies this
      ensures Counted() && State() == Executed(old(State()), callId, preferred, expiresAt, body)
      ensures accepted == !old(IsTerminal(status))
      ensures Clock() == if accepted then W.Touch(old(Clock()), now) else old(Clock())
      ensures accepted ==> HasIssued(old(log), EventLog.LlmExecute(callId, preferred), body) && lastEventAt == Some(now)
      ensures accepted ==> openLLM == old(openLLM)[callId := OpenCall(expiresAt, log[|log| - 1])]
      ensures !accepted ==> log == old(log) && openLLM == old(openLLM)
    {
      hide Wf, Buffered, Ids;
      accepted := !IsTerminal(status);
      if !accepted { return; }
      openLLM := openLLM - {callId};
      assert State() == old(State()).(open := old(openLLM) - {callId});
      var m, spawn := PublishLocked(EventLog.LlmExecute(callId, preferred), body);
      openLLM := openLLM[callId := OpenCall(expiresAt, m)];
      lastEventAt := Some(now);
      ScheduleWatchdog(now);
    }

    method LlmCancel(callId: string, body: string, now: int) returns (spawn: bool)
      requires Counted()
      modifies this
      ensures Counted() && State() == Cancelled(old(State()), callId, body)
      ensures Clock() == W.Touch(old(Clock()), now) && spawn == !old(hubDispatch)
      ensures HasIssued(old(log), Broadcast, body) && openLLM == old(openLLM) - {callId} && lastEventAt == Some(now)
    {
      hide Publish, Wf, Buffered, Ids, W.Schedule;
      openLLM := openLLM - {callId};
      assert State() == old(State()).(open := old(openLLM) - {callId});
      var m;
      m, spawn := PublishLocked(Broadcast, body);
      lastEventAt := Some(now);
      ScheduleWatchdog(now);
    }

    method LlmClose(callId: string)
      requires Counted()
      modifies this`openLLM
      ensures Counted() && State() == Closed(old(State()), callId)
      ensures openLLM == old(openLLM) - {callId}
    {
      openLLM := openLLM - {callId};
    }

    // -------------------------------------------------------------- watchdog

    method FireWatchdogCheck(now: int) returns (verdict: W.Verdict)
      modifies this`watchdog
      ensures (Clock(), verdict) == W.FireCheck(old(Clock()), now)
    {
      if lastEventAt.None? || IsTerminal(status) { return W.Quit; }
      var timeout := if hetero then W.HETERO_WINDOW else W.IDLE_WINDOW;
      if now - lastEventAt.value < timeout {
        ScheduleWatchdog(now);
        return W.Later;
      }
      return W.CallFinalize;
    }

    method FireWatchdogEnd(abandoned: bool, body: string, now: int) returns (ended: bool)
      requires Counted()
      modifies this
      ensures Counted() && (Clock(), ended) == W.FireEnd(old(Clock()), abandoned, now)
      ensures State() == if ended then Ended(old(State()), if abandoned then Errored else Completed, body) else old(State())
      ensures ended ==> HasIssued(old(log), Broadcast, body) && status == if abandoned then Errored else Completed
      ensures !ended ==> log == old(log) && status == old(status)
    {
      hide Publish, Wf, Buffered, Ids;
      if IsTerminal(status) || lastEventAt.None? { return false; }
      var timeout := if hetero then W.HETERO_WINDOW else W.IDLE_WINDOW;
      if now - lastEventAt.value < timeout {
        ScheduleWatchdog(now);
        return false;
      }
      status := if abandoned then Errored else Completed;
      var m, spawn := PublishLocked(Broadcast, body);
      ScheduleCleanup(now);
      return true;
    }

    // -------------------------------------------------------------- replay

    method PruneLLM(now: int)
      modifies this`openLLM
      ensures State() == Pruned(old(State()), now)
      ensures forall k :: k in openLLM <==> k in old(openLLM) && !IsTerminal(status) && old(openLLM)[k].expiresAt > now
      ensures forall k :: k in openLLM ==> openLLM[k] == old(openLLM)[k]
    {
      var todo := openLLM.Keys;
      while todo != {}
        invariant todo <= openLLM.Keys
        invariant openLLM == map k | k in old(openLLM) &&
          (k in todo || !(IsTerminal(status) || old(openLLM)[k].expiresAt <= now)) :: old(openLLM)[k]
        decreases |todo|
      {
        var k :| k in todo;
        todo := todo - {k};
        if IsTerminal(status) || openLLM[k].expiresAt <= now {
          openLLM := openLLM - {k};
        }
      }
    }

    // The payloads shown to a client that has seen everything up to `since`: whatever order the map of open calls is
    // visited in, they are the replay of the log.
    method CollectReplay(since: int, now: int) returns (payloads: seq<Message>, gap: bool, current: Status)
      requires Valid()
      modifies this`openLLM
      ensures Valid() && State() == Pruned(old(State()), now)
      ensures payloads == Collected(State(), since)
      ensures gap == Gap(State(), since) && current == status
    {
      hide Wf, Window, Sorting.Stable, Replay, Kept;
      ApplyWf(State(), Prune(now));
      PruneLLM(now);
      ghost var op := State();
      BufferIncreases(op);
      payloads := BufferedAfter(eventBuffer, openLLM, since);
      payloads := WithOpenCalls(op, payloads, openLLM, since);
      SortedReplay(op, payloads, since);
      payloads := Sorting.Stable(payloads, Earlier);
      gap := eventCounter > since;
      if |eventBuffer| > 0 { gap := eventBuffer[0].id > since + 1; }
      current := status;
    }

    // -------------------------------------------------------------- drainer

    // The locked section at the top of the drainer's loop.
    method DrainNext() returns (step: DrainStep)
      modifies this`hubQueue, this`hubOverflow, this`hubDispatch, this`sent
      ensures match step
        case CloseSubscribers => old(hubOverflow) && State() == ClearOverflow(old(State()))
        case Stopped => !old(hubOverflow) && old(hubQueue) == [] && State() == StopDraining(old(State()))
        case Take(e) => !old(hubOverflow) && old(hubQueue) != [] && State() == Pop(old(State())) && e == old(hubQueue)[0]
      ensures hubQueue == match step { case CloseSubscribers => [] case Stopped => [] case Take(_) => old(hubQueue)[1..] }
      ensures hubOverflow == (old(hubOverflow) && !step.CloseSubscribers?) && hubDispatch == (old(hubDispatch) && !step.Stopped?)
    {
      if hubOverflow {
        hubOverflow := false;
        DiscardQueue();
        return CloseSubscribers;
      }
      if |hubQueue| == 0 {
        hubDispatch := false;
        return Stopped;
      }
      step := Take(hubQueue[0]);
      hubQueue := hubQueue[1..];
    }
  }
}
