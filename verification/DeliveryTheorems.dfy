/** The guarantees of the delivery protocol, for every run and every reachable state. */
module DeliveryTheorems {
  import opened Wrappers
  import opened EventLog
  import opened Subscription
  import opened Delivery
  import opened Continuity
  import opened DeliveryInvariant
  import opened DeliverySteps

  // The broadcast events with an id in (lo, hi], in order.
  function Broadcasts(ms: seq<Message>, lo: int, hi: int): seq<Message> {
    if ms == [] then []
    else
      var r := Broadcasts(ms[..|ms| - 1], lo, hi);
      var m := ms[|ms| - 1];
      if m.kind.Broadcast? && lo < m.id <= hi then r + [m] else r
  }

  lemma {:induction false} BroadcastsFacts(ms: seq<Message>, lo: int, hi: int)
    requires Increasing(ms)
    ensures Increasing(Broadcasts(ms, lo, hi))
    ensures forall m :: m in Broadcasts(ms, lo, hi) <==> m in ms && m.kind.Broadcast? && lo < m.id <= hi
  {
    if ms == [] {
    } else {
      var front, last := ms[..|ms| - 1], ms[|ms| - 1];
      BroadcastsFacts(front, lo, hi);
      assert forall m :: m in front ==> m.id < last.id;
      assert forall m :: m in ms <==> m in front || m == last;
    }
  }

  // An open subscription whose history is its own.
  ghost predicate OpenSub(s: State, c: ConnId) {
    c in s.conns && !s.conns[c].closed && s.conns[c].sub.Some? && !s.conns[c].sub.value.foreign
  }

  ghost predicate OwnerSub(s: State, c: ConnId) {
    OpenSub(s, c) && s.conns[c].user == s.owner
  }

  lemma OpenFacts(run: seq<State>, i: nat, c: ConnId)
    requires IsRun(run) && i < |run| && OpenSub(run[i], c)
    ensures Issued(run[i].op.log) && Increasing(run[i].op.log) && QueueWf(run[i].op.log, run[i].op.queue)
    ensures SubInv(run[i].op.log, FrontOf(run[i].op), Flying(run[i].drainers, c, run[i].conns[c].user), run[i].conns[c].sub.value)
  {
    Reachable(run, i);
    assert Good(ViewOf(run[i]), c, run[i].conns[c]);
  }

  lemma CompletionFacts(run: seq<State>, i: nat, c: ConnId)
    requires IsRun(run) && i < |run| && OpenSub(run[i], c)
    ensures var s, conn := run[i], run[i].conns[c];
      && SubsInv(s.op.log, FrontOf(s.op), Flying(s.drainers, c, conn.user), conn)
      && (InState(conn, Replaying) ==> exists k :: k in conn.runs && Driving(conn.runs[k], conn.sub.value.gen))
  {
    Reachable(run, i);
    assert Good(ViewOf(run[i]), c, run[i].conns[c]);
  }

  // ------------------------------------------------------------------ no silent skip

  // What a subscription has been written is what the log holds between its resume id and its position; after a gap, what
  // it holds above that.
  ghost predicate WrittenInFull(log: seq<Message>, sub: Sub) {
    && Increasing(sub.written)
    && (forall m :: m in sub.written ==> m in log && sub.since < m.id <= sub.lastSeq)
    && Broadcasts(sub.written, sub.floor, sub.lastSeq) == Broadcasts(log, sub.floor, sub.lastSeq)
    && (!sub.gapped ==> Broadcasts(sub.written, sub.since, sub.lastSeq) == Broadcasts(log, sub.since, sub.lastSeq))
  }

  // As long as no completion that found a gap has flushed into it, a subscription has been written exactly the
  // broadcast events of the log after its resume id, up to its position, each once and in order. After a gap, what is
  // missing is at most what the replay could no longer hold.
  lemma NoSilentSkip(run: seq<State>, i: nat, c: ConnId)
    requires IsRun(run) && i < |run| && OpenSub(run[i], c)
    ensures WrittenInFull(run[i].op.log, run[i].conns[c].sub.value)
  {
    OpenFacts(run, i, c);
    var sub, log := run[i].conns[c].sub.value, run[i].op.log;
    assert forall m :: m in sub.written ==> IsIssued(log, m);
    WrittenExactly(log, sub);
  }

  lemma WrittenExactly(log: seq<Message>, sub: Sub)
    requires Issued(log) && Increasing(log) && WrittenOk(log, sub)
    requires Covered(log, sub.floor, sub.lastSeq, sub.written, None)
    ensures Broadcasts(sub.written, sub.floor, sub.lastSeq) == Broadcasts(log, sub.floor, sub.lastSeq)
  {
    BroadcastsFacts(log, sub.floor, sub.lastSeq);
    BroadcastsFacts(sub.written, sub.floor, sub.lastSeq);
    var a, b := Broadcasts(sub.written, sub.floor, sub.lastSeq), Broadcasts(log, sub.floor, sub.lastSeq);
    forall m ensures m in a <==> m in b {
      if m in b { assert IsIssued(log, m); }
      if m in a { assert IsIssued(log, m); }
    }
    IncreasingUnique(a, b);
  }

  // The snapshot brings m, or reports it gone.
  ghost predicate Brings(shot: Snapshot, m: Message) {
    m in shot.replay || (shot.gap && m.id <= shot.trimmed)
  }

  ghost predicate InSnapshot(conn: Conn, m: Message) {
    conn.sub.Some? &&
    exists k :: k in conn.runs && conn.runs[k].Flush? && conn.runs[k].shot.gen == conn.sub.value.gen && Brings(conn.runs[k].shot, m)
  }

  ghost predicate TakesSnapshotLater(conn: Conn) {
    conn.sub.Some? && exists k :: k in conn.runs && Driving(conn.runs[k], conn.sub.value.gen) && !conn.runs[k].Flush?
  }

  ghost predicate Outstanding(s: State, sub: Sub, m: Message) {
    && m in s.op.log && m.kind.Broadcast? && m.id > sub.lastSeq && m.id > sub.floor
    && sub.doomed.None? && !sub.state.Pending?
  }

  ghost predicate OnItsWay(s: State, c: ConnId, m: Message)
    requires Subscribed(s, c)
  {
    var sub := s.conns[c].sub.value;
    || m in s.op.queue
    || Flying(s.drainers, c, s.owner) == Some(m)
    || (sub.state.Replaying? && (m in sub.queue || InSnapshot(s.conns[c], m) || TakesSnapshotLater(s.conns[c])))
  }

  // Every broadcast event beyond the position of a subscription that is not about to be closed is still on its way:
  // in the hub queue, in flight for this connection, parked in the subscription, held (or reported gone) by the
  // snapshot a completion is about to flush, or to be met by a snapshot still to be taken.
  lemma NothingForgotten(run: seq<State>, i: nat, c: ConnId, m: Message)
    requires IsRun(run) && i < |run| && OwnerSub(run[i], c)
    requires Outstanding(run[i], run[i].conns[c].sub.value, m)
    ensures OnItsWay(run[i], c, m)
  {
    OpenFacts(run, i, c);
    var s, conn := run[i], run[i].conns[c];
    assert IsIssued(s.op.log, m);
    if m.id > FrontOf(s.op) {
      assert m == s.op.queue[m.id - 1 - FrontOf(s.op)];
    } else if conn.sub.value.state.Replaying? {
      CompletionFacts(run, i, c);
      var k :| k in conn.runs && Driving(conn.runs[k], conn.sub.value.gen);
    }
  }

  ghost predicate OpenReplaying(conn: Conn) {
    InState(conn, Replaying) && !conn.sub.value.foreign && conn.sub.value.doomed.None?
  }

  lemma ShotHolds(log: seq<Message>, f: int, flying: Option<Message>, sub: Sub, shot: Snapshot, m: Message)
    requires SnapshotOk(log, shot) && HoldInv(log, f, flying, sub, shot)
    requires shot.gen == sub.gen && !sub.foreign && sub.state.Replaying? && sub.doomed.None?
    requires IsIssued(log, m) && m.kind.Broadcast? && sub.lastSeq < m.id <= f
    ensures flying == Some(m) || m in sub.queue || Brings(shot, m)
  {
    assert log[m.id - 1] == m;
  }

  // ------------------------------------------------------------------ no lost wake-up

  // A replaying subscription always has a completion at work, and once init has named the owner and its lifecycle pass
  // is over, a parked one is about to be taken back by its own completion.
  lemma NoLostWakeUp(run: seq<State>, i: nat, c: ConnId)
    requires IsRun(run) && i < |run| && c in run[i].conns && !run[i].conns[c].closed
    ensures var s, conn := run[i], run[i].conns[c];
      && (InState(conn, Replaying) ==> exists k :: k in conn.runs && Driving(conn.runs[k], conn.sub.value.gen))
      && (InState(conn, Pending) && conn.user == s.owner && 0 in s.passes && s.passes[0].Finished? ==>
            0 in conn.runs && (conn.runs[0].Recheck? || conn.runs[0].Unpark?))
  {
    Reachable(run, i);
    assert Good(ViewOf(run[i]), c, run[i].conns[c]);
  }

  // With the pass over and no completion running, every open subscription of the owner is live.
  lemma SettledIsLive(run: seq<State>, i: nat, c: ConnId)
    requires IsRun(run) && i < |run| && Subscribed(run[i], c) && !run[i].conns[c].closed && run[i].conns[c].user == run[i].owner
    requires 0 in run[i].passes && run[i].passes[0].Finished? && run[i].conns[c].runs == map[]
    ensures run[i].conns[c].sub.value.state.Live?
  {
    NoLostWakeUp(run, i, c);
  }

  // ------------------------------------------------------------------ everything arrives

  lemma IdleFacts(run: seq<State>, i: nat, c: ConnId)
    requires IsRun(run) && i < |run| && OpenSub(run[i], c) && run[i].drainers == []
    ensures run[i].conns[c].sub.value.doomed.None? && FrontOf(run[i].op) == |run[i].op.log|
  {
    Reachable(run, i);
    assert Good(ViewOf(run[i]), c, run[i].conns[c]);
    assert DoomOk(ViewOf(run[i]), c, run[i].conns[c]);
  }

  // The hub is idle, and no completion of the connection is running.
  ghost predicate Settled(s: State, c: ConnId)
    requires c in s.conns
  {
    s.drainers == [] && 0 in s.passes && s.passes[0].Finished? && s.conns[c].runs == map[]
  }

  ghost predicate UpToDate(log: seq<Message>, sub: Sub) {
    && Broadcasts(sub.written, sub.floor, |log|) == Broadcasts(log, sub.floor, |log|)
    && (!sub.gapped ==> Broadcasts(sub.written, sub.since, |log|) == Broadcasts(log, sub.since, |log|))
  }

  // When the hub is idle and the connection has settled, its client has every broadcast event after its resume id.
  lemma IdleMeansDelivered(run: seq<State>, i: nat, c: ConnId)
    requires IsRun(run) && i < |run| && OwnerSub(run[i], c) && Settled(run[i], c)
    ensures UpToDate(run[i].op.log, run[i].conns[c].sub.value)
  {
    OpenFacts(run, i, c);
    SettledIsLive(run, i, c);
    IdleFacts(run, i, c);
    CaughtUp(run[i].op.log, run[i].conns[c].sub.value);
  }

  lemma CaughtUp(log: seq<Message>, sub: Sub)
    requires Issued(log) && Increasing(log) && SubInv(log, |log|, None, sub) && sub.state.Live? && sub.doomed.None? && !sub.foreign
    ensures UpToDate(log, sub)
  {
    BroadcastsFacts(log, sub.floor, |log|);
    BroadcastsFacts(sub.written, sub.floor, |log|);
    var a, b := Broadcasts(sub.written, sub.floor, |log|), Broadcasts(log, sub.floor, |log|);
    forall m ensures m in a <==> m in b {
      if m in b { assert IsIssued(log, m); }
      if m in a { assert IsIssued(log, m); }
    }
    IncreasingUnique(a, b);
  }

  // ------------------------------------------------------------------ overflow

  // Queued events leave the queue undelivered in two places.
  ghost predicate LosesQueue(s: State, l: Label) {
    || (l.Issue? && Discards(s.op, l.cmd))
    || (l.Drain? && l.d < |s.drainers| && s.drainers[l.d].Loop? && s.op.overflow)
  }

  // What a step can do to a subscription: end it for good, or keep its identity and its doom.
  ghost predicate SubSteps(conn: Conn, conn': Conn) {
    && conn.nextGen <= conn'.nextGen
    && (conn.closed ==> conn'.closed)
    && (conn'.sub.Some? && conn'.sub.value.gen < conn.nextGen ==> conn.sub.Some? && conn.sub.value.gen == conn'.sub.value.gen)
    && (conn'.sub.Some? && conn'.sub.value.gen < conn.nextGen && conn.sub.value.doomed.Some? ==>
          conn'.sub.value.doomed == conn.sub.value.doomed)
  }

  lemma StepSubs(s: State, l: Label, c: ConnId)
    requires Base(s) && Enabled(s, l) && c in s.conns
    ensures c in Step(s, l).conns && SubSteps(s.conns[c], Step(s, l).conns[c])
  {
    hide CompleteConn, DrainStep, VisitStep, Apply;
    match l
    case Complete(x, k, now, keep, fail) =>
      if x == c {
        CompleteContinues(if s.conns[c].runs[k].Collect? then Pruned(s.op, now) else s.op, s.conns[c], k, keep, fail);
      }
    case Drain(d, x, ok) => DrainContinues(s, d, x, ok);
    case Visit(p, x, k, ok) => VisitContinues(s, p, x, k, ok);
    case _ =>
  }

  // A subscription stops being its own history exactly when a completion of an earlier subscription of the same
  // connection, still running when this one was requested, flushes into it.
  lemma ForeignExact(s: State, l: Label, c: ConnId)
    requires Base(s) && Enabled(s, l) && Subscribed(s, c)
    requires Subscribed(Step(s, l), c) && Step(s, l).conns[c].nextGen == s.conns[c].nextGen
    ensures Step(s, l).conns[c].sub.value.foreign <==> s.conns[c].sub.value.foreign || FlushesForeign(s, l, c)
  {
    hide CompleteConn, VisitStep, DrainStep, Base, SubSteps;
    StepSubs(s, l, c);
    match l
    case Complete(x, k, now, keep, fail) =>
      if x == c {
        CompleteForeign(if s.conns[c].runs[k].Collect? then Pruned(s.op, now) else s.op, s.conns[c], k, keep, fail);
      }
    case Drain(d, x, ok) => DrainContinues(s, d, x, ok);
    case Visit(p, x, k, ok) => VisitContinues(s, p, x, k, ok);
    case _ =>
  }

  ghost predicate FlushesForeign(s: State, l: Label, c: ConnId)
    requires Enabled(s, l) && Subscribed(s, c)
  {
    match l
    case Complete(x, k, _, _, _) => x == c && s.conns[c].runs[k].Flush? && s.conns[c].runs[k].shot.gen != s.conns[c].sub.value.gen
    case _ => false
  }

  lemma CompleteForeign(op: Op, conn: Conn, k: nat, keep: set<int>, fail: Option<nat>)
    requires k in conn.runs && conn.sub.Some?
    requires conn.runs[k].Flush? ==> FailPossible(conn.sub.value, conn.runs[k].shot, keep, fail)
    requires CompleteConn(op, conn, k, keep, fail).sub.Some?
    ensures CompleteConn(op, conn, k, keep, fail).sub.value.foreign <==>
      conn.sub.value.foreign || (conn.runs[k].Flush? && conn.runs[k].shot.gen != conn.sub.value.gen)
  {
    if conn.runs[k].Flush? {
      var shot, sub := conn.runs[k].shot, conn.sub.value;
      var ms := FlushList(shot.replay, keep, sub.queue);
      DeliveryShape(Marked(sub, shot.gen, shot.trimmed, shot.gap), if fail.Some? then ms[..fail.value] else ms);
    }
  }

  // A step that loses queued events marks every subscription that is open.
  lemma LossDooms(s: State, l: Label, c: ConnId)
    requires Enabled(s, l) && LosesQueue(s, l) && c in s.conns && s.conns[c].sub.Some?
    ensures Step(s, l).conns[c].sub.Some? && Step(s, l).conns[c].sub.value.gen == s.conns[c].sub.value.gen
    ensures s.conns[c].sub.value.doomed.None? ==> Step(s, l).conns[c].sub.value.doomed == Some(FrontOf(s.op))
    ensures s.conns[c].sub.value.doomed.Some? ==> Step(s, l).conns[c].sub.value.doomed == s.conns[c].sub.value.doomed
  {
  }

  // Every later step of the run treats connection c as SubSteps says.
  ghost predicate Tracks(run: seq<State>, c: ConnId) {
    forall k :: 0 <= k < |run| - 1 && c in run[k].conns ==> c in run[k + 1].conns && SubSteps(run[k].conns[c], run[k + 1].conns[c])
  }

  lemma AllTrack(run: seq<State>, c: ConnId)
    requires IsRun(run)
    ensures Tracks(run, c)
  {
    forall k | 0 <= k < |run| - 1 && c in run[k].conns
      ensures c in run[k + 1].conns && SubSteps(run[k].conns[c], run[k + 1].conns[c])
    {
      RunSubs(run, k, c);
    }
  }

  // The same subscription later in the run is still doomed.
  lemma {:induction false} DoomLasts(run: seq<State>, i: nat, j: nat, c: ConnId)
    requires Tracks(run, c) && i <= j < |run| && c in run[i].conns && run[i].conns[c].sub.Some?
    requires run[i].conns[c].sub.value.doomed.Some? && run[i].conns[c].sub.value.gen < run[i].conns[c].nextGen
    ensures c in run[j].conns && run[i].conns[c].nextGen <= run[j].conns[c].nextGen
    ensures run[j].conns[c].sub.Some? && run[j].conns[c].sub.value.gen == run[i].conns[c].sub.value.gen ==>
      run[j].conns[c].sub.value.doomed == run[i].conns[c].sub.value.doomed
    decreases j
  {
    if i == j {
    } else {
      DoomLasts(run, i, j - 1, c);
    }
  }

  lemma RunSubs(run: seq<State>, i: nat, c: ConnId)
    requires IsRun(run) && i + 1 < |run| && c in run[i].conns
    ensures c in run[i + 1].conns && SubSteps(run[i].conns[c], run[i + 1].conns[c])
  {
    Reachable(run, i);
    assert StepAt(run, i);
    var l :| Enabled(run[i], l) && run[i + 1] == Step(run[i], l);
    StepSubs(run[i], l, c);
  }

  lemma DoomFacts(run: seq<State>, i: nat, c: ConnId)
    requires IsRun(run) && i < |run| && c in run[i].conns && !run[i].conns[c].closed && run[i].conns[c].sub.Some?
    ensures run[i].conns[c].sub.value.gen < run[i].conns[c].nextGen
    ensures run[i].conns[c].sub.value.doomed.Some? ==>
      InFlightId(run[i].drainers) <= run[i].conns[c].sub.value.doomed.value <= FrontOf(run[i].op)
  {
    Reachable(run, i);
    assert Good(ViewOf(run[i]), c, run[i].conns[c]);
    assert DoomOk(ViewOf(run[i]), c, run[i].conns[c]);
  }

  // Overflow is never observed as a skip: a subscription that is open when queued events are discarded is closed,
  // dropped or replaced before the drainer takes any event with a higher id, however many overflows follow.
  lemma OverflowClosesFirst(run: seq<State>, i: nat, l: Label, j: nat, c: ConnId)
    requires IsRun(run) && i < j < |run|
    requires Enabled(run[i], l) && run[i + 1] == Step(run[i], l) && LosesQueue(run[i], l)
    requires c in run[i].conns && !run[i].conns[c].closed && run[i].conns[c].sub.Some?
    requires InFlightId(run[j].drainers) > FrontOf(run[i].op)
    ensures c in run[j].conns
    ensures run[j].conns[c].closed || run[j].conns[c].sub.None? || run[j].conns[c].sub.value.gen != run[i].conns[c].sub.value.gen
  {
    DoomFacts(run, i, c);
    LossDooms(run[i], l, c);
    RunSubs(run, i, c);
    AllTrack(run, c);
    DoomLasts(run, i + 1, j, c);
    if !run[j].conns[c].closed && run[j].conns[c].sub.Some? { DoomFacts(run, j, c); }
  }

  // And as long as a doomed subscription is open, the drainer takes no event at all.
  lemma DoomBlocksDrainer(run: seq<State>, i: nat, c: ConnId)
    requires IsRun(run) && i < |run| && c in run[i].conns && !run[i].conns[c].closed
    requires run[i].conns[c].sub.Some? && run[i].conns[c].sub.value.doomed.Some?
    ensures run[i].op.overflow || ClosingCovers(run[i].drainers, c)
    ensures run[i].drainers != []
  {
    Reachable(run, i);
    assert Good(ViewOf(run[i]), c, run[i].conns[c]);
  }

  // ------------------------------------------------------------------ drainer discipline

  // Queued events or a raised overflow mean exactly one drainer; the queue is a run of ids up to the newest; no result
  // channel is sent to twice, so no send blocks, and every one has been sent to when the drainer is gone.
  lemma DrainerDiscipline(run: seq<State>, i: nat)
    requires IsRun(run) && i < |run|
    ensures var op, ds := run[i].op, run[i].drainers;
      && |ds| <= 1 && (op.queue != [] || op.overflow ==> |ds| == 1)
      && |op.queue| <= EVENT_BUFFER_MAX && (forall j :: 0 <= j < |op.queue| ==> op.queue[j].id == |op.log| - |op.queue| + j + 1)
      && (forall id :: op.sent[id] <= 1)
      && (ds == [] ==> forall m :: m in op.log ==> op.sent[m.id] == 1)
  {
    Reachable(run, i);
  }
}
