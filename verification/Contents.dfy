/** What clients are sent is what was issued: from the command that issued an event to the socket. */
module Contents {
  import opened Wrappers
  import opened EventLog
  import opened Subscription
  import opened Delivery
  import opened Continuity
  import opened DeliveryInvariant
  import opened DeliverySteps
  import opened DeliveryTheorems
  import opened Losses
  import Sorting

  // ------------------------------------------------------------------ where an event comes from

  // The command publishes an event of this kind with this body.
  predicate Carries(cmd: Command, kind: Kind, body: string) {
    match cmd
    case Push(k, b) => kind == k && body == b
    case Ask(b) => kind == Broadcast && body == b
    case End(_, b) => kind == Broadcast && body == b
    case Update(_, b) => kind == Broadcast && body == b
    case Execute(callId, preferred, _, b) => kind == LlmExecute(callId, preferred) && body == b
    case Cancel(_, b) => kind == Broadcast && body == b
    case _ => false
  }

  lemma LogStep(s: State, l: Label)
    requires Enabled(s, l)
    ensures var log, log' := s.op.log, Step(s, l).op.log;
      || log' == log
      || (l.Issue? && |log'| == |log| + 1 && log' == log + [log'[|log|]] && log'[|log|].id == |log| + 1
          && Carries(l.cmd, log'[|log|].kind, log'[|log|].body))
  {
    hide DrainStep, VisitStep, CompleteConn, Apply, Carries, Undisturbed;
    if l.Issue? {
      CommandCarries(s.op, l.cmd);
    } else if l.Drain? {
      DrainContinues(s, l.d, l.c, l.ok);
    } else if l.Visit? {
      VisitContinues(s, l.p, l.c, l.k, l.ok);
    }
  }

  lemma CommandCarries(op: Op, cmd: Command)
    requires IssueAllowed(cmd)
    ensures var log, log' := op.log, Apply(op, cmd).log;
      || log' == log
      || (|log'| == |log| + 1 && log' == log + [log'[|log|]] && log'[|log|].id == |log| + 1
          && Carries(cmd, log'[|log|].kind, log'[|log|].body))
  {
    IssueKinds(op, cmd);
  }

  // At step j a command issues event m.
  ghost predicate IssuesAt(run: seq<State>, j: nat, m: Message)
    requires j + 1 < |run|
  {
    && m.id == |run[j].op.log| + 1 && run[j + 1].op.log == run[j].op.log + [m]
    && exists cmd :: StepsBy(run[j], Issue(cmd), run[j + 1]) && Carries(cmd, m.kind, m.body)
  }

  // Every event of the log was issued, under the next number, by a command that carried its kind and body.
  lemma {:induction false} LoggedWasIssued(run: seq<State>, i: nat, m: Message) returns (j: nat)
    requires IsRun(run) && i < |run| && m in run[i].op.log
    ensures j < i && IssuesAt(run, j, m)
  {
    assert i > 0;
    var before := i - 1;
    assert StepAt(run, before);
    var l :| Enabled(run[before], l) && run[before + 1] == Step(run[before], l);
    LogStep(run[before], l);
    if m in run[before].op.log {
      j := LoggedWasIssued(run, before, m);
    } else {
      j := before;
      assert StepsBy(run[j], l, run[j + 1]);
      assert run[i].op.log == run[j].op.log + [m];
    }
  }

  // Whatever a client has been sent under an id has the kind and the body of the command that issued the event of that id.
  lemma WrittenWasIssued(run: seq<State>, i: nat, c: ConnId, m: Message) returns (j: nat)
    requires IsRun(run) && i < |run| && Subscribed(run[i], c) && !run[i].conns[c].closed
    requires m in run[i].conns[c].sub.value.written || m in run[i].conns[c].sub.value.queue
    ensures j < i && IssuesAt(run, j, m)
  {
    Reachable(run, i);
    assert Good(ViewOf(run[i]), c, run[i].conns[c]);
    assert IsIssued(run[i].op.log, m);
    j := LoggedWasIssued(run, i, m);
  }

  // ------------------------------------------------------------------ what a flush sends

  // The replay of the snapshot brings m to this connection.
  predicate Replayed(shot: Snapshot, keep: set<int>, m: Message) {
    m in shot.replay && (m.kind.LlmExecute? ==> m.id in keep)
  }

  // Of any kind, and above the position: a complete flush sends exactly what its snapshot replays, the llm_execute events
  // that the connection was not chosen for left out, and what is parked and newer than all of that.
  lemma FlushSends(run: seq<State>, i: nat, c: ConnId, k: nat, now: int, keep: set<int>, m: Message)
    requires IsRun(run) && i < |run| && Subscribed(run[i], c) && !run[i].conns[c].closed
    requires k in run[i].conns[c].runs && run[i].conns[c].runs[k].Flush? && Enabled(run[i], Complete(c, k, now, keep, None))
    requires m.id > run[i].conns[c].sub.value.lastSeq
    ensures var shot, sub := run[i].conns[c].runs[k].shot, run[i].conns[c].sub.value;
      m in Step(run[i], Complete(c, k, now, keep, None)).conns[c].sub.value.written <==>
        Replayed(shot, keep, m) || (m in sub.queue && forall x :: Replayed(shot, keep, x) ==> x.id < m.id)
  {
    hide Inv, FlushList, DeliveredAll;
    Reachable(run, i);
    FlushFacts(run[i], c, k);
    ListSends(run[i].op.log, run[i].conns[c].sub.value, run[i].conns[c].runs[k].shot, keep, m);
  }

  lemma ListSends(log: seq<Message>, sub: Sub, shot: Snapshot, keep: set<int>, m: Message)
    requires WrittenOk(log, sub) && SnapshotOk(log, shot) && Increasing(sub.queue) && m.id > sub.lastSeq
    requires forall x :: x in sub.queue ==> IsIssued(log, x)
    ensures m in Flushed(sub, shot.gen, shot.trimmed, shot.gap, FlushList(shot.replay, keep, sub.queue)).written <==>
      Replayed(shot, keep, m) || (m in sub.queue && forall x :: Replayed(shot, keep, x) ==> x.id < m.id)
  {
    var base := Marked(sub, shot.gen, shot.trimmed, shot.gap);
    var a := Targeted(shot.replay, keep);
    TargetedExactly(shot.replay, keep);
    SortedQueue(sub.queue);
    DeliveredAllConcat(base, a, sub.queue);
    MarkedOk(log, sub, shot.gen, shot.trimmed, shot.gap);
    hide DeliveredAll, Targeted, Sorting.Stable, WrittenOk;
    TwoLists(log, base, a, sub.queue, m);
  }

  // So the attempts of a snapshot reach the client exactly if it was chosen for them, or the drainer had parked them for it.
  lemma AttemptSentExactly(run: seq<State>, i: nat, c: ConnId, k: nat, now: int, keep: set<int>, m: Message)
    requires IsRun(run) && i < |run| && Subscribed(run[i], c) && !run[i].conns[c].closed
    requires k in run[i].conns[c].runs && run[i].conns[c].runs[k].Flush? && Enabled(run[i], Complete(c, k, now, keep, None))
    requires m in run[i].conns[c].runs[k].shot.replay && m.kind.LlmExecute? && m.id > run[i].conns[c].sub.value.lastSeq
    ensures var shot, sub := run[i].conns[c].runs[k].shot, run[i].conns[c].sub.value;
      m in Step(run[i], Complete(c, k, now, keep, None)).conns[c].sub.value.written <==>
        m.id in keep || (m in sub.queue && forall x :: Replayed(shot, keep, x) ==> x.id < m.id)
  {
    FlushSends(run, i, c, k, now, keep, m);
  }

  // And a snapshot has every attempt that is open and unexpired when it is taken, of an operation that is not over.
  lemma SnapshotHasAttempts(run: seq<State>, i: nat, c: ConnId, k: nat, now: int, callId: string)
    requires IsRun(run) && i < |run| && c in run[i].conns && k in run[i].conns[c].runs && run[i].conns[c].runs[k].Collect?
    requires callId in run[i].op.open && run[i].op.open[callId].expiresAt > now && !IsTerminal(run[i].op.status)
    requires run[i].op.open[callId].payload.id > run[i].conns[c].runs[k].since
    ensures Enabled(run[i], Complete(c, k, now, {}, None))
    ensures var t := Step(run[i], Complete(c, k, now, {}, None));
      && t.conns[c].runs[k].Flush? && run[i].op.open[callId].payload in t.conns[c].runs[k].shot.replay
  {
    Reachable(run, i);
    var op, since := run[i].op, run[i].conns[c].runs[k].since;
    OpenIsReplayed(op, now, since, callId);
  }

  lemma OpenIsReplayed(op: Op, now: int, since: int, callId: string)
    requires Wf(op) && callId in op.open && op.open[callId].expiresAt > now && !IsTerminal(op.status)
    requires op.open[callId].payload.id > since
    ensures op.open[callId].payload in Collected(Pruned(op, now), since)
  {
    var op', m := Pruned(op, now), op.open[callId].payload;
    ReplayFacts(op'.log, Trimmed(op'), op'.open, since);
    assert IsIssued(op.log, m);
    assert m in op'.log;
  }
}
