/**
 * The guarantees for a client that never subscribes while a completion of its connection is running. Its subscriptions
 * have a history of their own, so what holds for those holds for it without further conditions.
 */
module SequentialClients {
  import opened Wrappers
  import opened EventLog
  import opened Subscription
  import opened Delivery
  import opened Continuity
  import opened DeliveryInvariant
  import opened DeliverySteps
  import opened DeliveryTheorems
  import opened Losses

  // `nextGen` counts the subscribe requests of a connection: if c subscribes at this step, no completion is running.
  predicate SubscribesAloneAt(s: State, t: State, c: ConnId) {
    c in s.conns && c in t.conns && t.conns[c].nextGen != s.conns[c].nextGen ==> s.conns[c].runs == map[]
  }

  ghost predicate SubscribesAlone(run: seq<State>, c: ConnId) {
    forall i: nat :: i + 1 < |run| ==> SubscribesAloneAt(run[i], run[i + 1], c)
  }

  predicate OfGen(phase: Phase, gen: nat) {
    match phase
    case Collect(g, _) => g == gen
    case Flush(shot) => shot.gen == gen
    case _ => true
  }

  // Every completion works for the subscription that is there.
  ghost predicate OneAtATime(conn: Conn) {
    conn.sub.Some? ==> !conn.sub.value.foreign && forall k :: k in conn.runs ==> OfGen(conn.runs[k], conn.sub.value.gen)
  }

  lemma CompleteAlone(op: Op, conn: Conn, k: nat, keep: set<int>, fail: Option<nat>)
    requires k in conn.runs && OneAtATime(conn)
    requires conn.runs[k].Flush? && conn.sub.Some? ==> FailPossible(conn.sub.value, conn.runs[k].shot, keep, fail)
    ensures OneAtATime(CompleteConn(op, conn, k, keep, fail))
  {
    hide FlushList, Collected, Gap, Trimmed, DeliveredAll, Range;
    if conn.runs[k].Flush? && conn.sub.Some? {
      var shot, sub := conn.runs[k].shot, conn.sub.value;
      var ms := FlushList(shot.replay, keep, sub.queue);
      assert OfGen(conn.runs[k], sub.gen);
      DeliveryShape(Marked(sub, shot.gen, shot.trimmed, shot.gap), if fail.Some? then ms[..fail.value] else ms);
    }
  }

  lemma StillAlone(conn: Conn, conn': Conn)
    requires Undisturbed(conn, conn') && OneAtATime(conn)
    ensures OneAtATime(conn')
  {
  }

  lemma StepAlone(s: State, l: Label, c: ConnId)
    requires Enabled(s, l) && c in s.conns && OneAtATime(s.conns[c]) && SubscribesAloneAt(s, Step(s, l), c)
    ensures c in Step(s, l).conns && OneAtATime(Step(s, l).conns[c])
  {
    hide CompleteConn, DrainStep, VisitStep, Apply, OneAtATime, Undisturbed;
    match l
    case Complete(x, k, now, keep, fail) =>
      if x == c {
        CompleteAlone(if s.conns[c].runs[k].Collect? then Pruned(s.op, now) else s.op, s.conns[c], k, keep, fail);
      }
    case Drain(d, x, ok) =>
      DrainContinues(s, d, x, ok);
      StillAlone(s.conns[c], DrainStep(s, d, x, ok).conns[c]);
    case Visit(p, x, k, ok) =>
      VisitContinues(s, p, x, k, ok);
      StillAlone(s.conns[c], VisitStep(s, p, x, k, ok).conns[c]);
    case _ => OtherAlone(s, l, c);
  }

  lemma OtherAlone(s: State, l: Label, c: ConnId)
    requires Enabled(s, l) && !l.Complete? && !l.Drain? && !l.Visit?
    requires c in s.conns && OneAtATime(s.conns[c]) && SubscribesAloneAt(s, Step(s, l), c)
    ensures c in Step(s, l).conns && OneAtATime(Step(s, l).conns[c])
  {
    hide Apply;
  }

  lemma {:induction false} AlwaysAlone(run: seq<State>, i: nat, c: ConnId)
    requires IsRun(run) && i < |run| && SubscribesAlone(run, c) && c in run[i].conns
    ensures OneAtATime(run[i].conns[c])
  {
    assert i > 0;
    var before := i - 1;
    assert StepAt(run, before);
    var l :| Enabled(run[before], l) && run[i] == Step(run[before], l);
    if c in run[before].conns {
      AlwaysAlone(run, before, c);
      assert SubscribesAloneAt(run[before], run[before + 1], c);
      StepAlone(run[before], l, c);
    } else {
      Reachable(run, before);
      NewConnection(run[before], l, c);
    }
  }

  lemma NewConnection(s: State, l: Label, c: ConnId)
    requires Base(s) && Enabled(s, l) && c !in s.conns && c in Step(s, l).conns
    ensures Step(s, l).conns[c].sub == None
  {
    hide Apply, CompleteConn, DrainStep, VisitStep, Base, Undisturbed;
    match l
    case Drain(d, x, ok) => DrainContinues(s, d, x, ok);
    case Visit(p, x, k, ok) => VisitContinues(s, p, x, k, ok);
    case _ =>
  }

  // No completion of an earlier subscription ever flushes into one of its subscriptions.
  lemma NeverForeign(run: seq<State>, i: nat, c: ConnId)
    requires IsRun(run) && i < |run| && SubscribesAlone(run, c)
    requires Subscribed(run[i], c) && !run[i].conns[c].closed
    ensures OpenSub(run[i], c)
  {
    AlwaysAlone(run, i, c);
  }

  // The client has been written exactly the broadcast events after its resume id up to its position, or after a gap those
  // above what the gap reported.
  lemma WrittenToSequentialClient(run: seq<State>, i: nat, c: ConnId)
    requires IsRun(run) && i < |run| && SubscribesAlone(run, c)
    requires Subscribed(run[i], c) && !run[i].conns[c].closed
    ensures WrittenInFull(run[i].op.log, run[i].conns[c].sub.value)
  {
    NeverForeign(run, i, c);
    NoSilentSkip(run, i, c);
  }

  // What it has been moved past without being sent it, some flush into its subscription gave up, and reported as a gap.
  lemma SkippedForSequentialClient(run: seq<State>, i: nat, c: ConnId, m: Message)
    requires IsRun(run) && i < |run| && SubscribesAlone(run, c)
    requires Subscribed(run[i], c) && !run[i].conns[c].closed && m in run[i].op.log && m.kind.Broadcast?
    requires run[i].conns[c].sub.value.since < m.id <= run[i].conns[c].sub.value.lastSeq
    ensures m !in run[i].conns[c].sub.value.written <==> GivenUp(run, i, c, run[i].conns[c].sub.value.gen, m.id)
    ensures m !in run[i].conns[c].sub.value.written ==> run[i].conns[c].sub.value.gapped
  {
    NeverForeign(run, i, c);
    SkippedExactly(run, i, c, m);
    NoSilentSkip(run, i, c);
    var sub, log := run[i].conns[c].sub.value, run[i].op.log;
    if !sub.gapped {
      OpenFacts(run, i, c);
      BroadcastsFacts(log, sub.since, sub.lastSeq);
      BroadcastsFacts(sub.written, sub.since, sub.lastSeq);
    }
  }

  // What is beyond its position is on its way.
  lemma NothingForgottenForSequentialClient(run: seq<State>, i: nat, c: ConnId, m: Message)
    requires IsRun(run) && i < |run| && SubscribesAlone(run, c)
    requires Subscribed(run[i], c) && !run[i].conns[c].closed && run[i].conns[c].user == run[i].owner
    requires Outstanding(run[i], run[i].conns[c].sub.value, m)
    ensures OnItsWay(run[i], c, m)
  {
    NeverForeign(run, i, c);
    NothingForgotten(run, i, c, m);
  }

  // When the hub is idle and the connection has settled, it has every broadcast event after its resume id.
  lemma IdleMeansDeliveredToSequentialClient(run: seq<State>, i: nat, c: ConnId)
    requires IsRun(run) && i < |run| && SubscribesAlone(run, c)
    requires Subscribed(run[i], c) && !run[i].conns[c].closed && run[i].conns[c].user == run[i].owner && Settled(run[i], c)
    ensures UpToDate(run[i].op.log, run[i].conns[c].sub.value)
  {
    NeverForeign(run, i, c);
    IdleMeansDelivered(run, i, c);
  }
}
