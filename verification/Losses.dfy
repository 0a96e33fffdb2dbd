/**
 * Exactly which broadcast events a client is moved past without being sent them: those that a flush into its subscription
 * found trimmed and did not list, as long as nothing has taken them up again.
 */
module Losses {
  import opened Wrappers
  import opened EventLog
  import opened Subscription
  import opened Delivery
  import opened Continuity
  import opened DeliveryInvariant
  import opened DeliverySteps
  import opened DeliveryTheorems

  // What has been passed unwritten is what is lost.
  lemma PassedIsLost(run: seq<State>, i: nat, c: ConnId, m: Message)
    requires IsRun(run) && i < |run| && OpenSub(run[i], c)
    requires m in run[i].op.log && m.kind.Broadcast?
    requires run[i].conns[c].sub.value.since < m.id <= run[i].conns[c].sub.value.lastSeq
    ensures m !in run[i].conns[c].sub.value.written <==> m.id in run[i].conns[c].sub.value.lost
  {
    OpenFacts(run, i, c);
    assert IsIssued(run[i].op.log, m);
  }

  // ------------------------------------------------------------------ how events get lost, one step

  ghost predicate Flushes(s: State, l: Label, c: ConnId)
    requires Enabled(s, l)
  {
    l.Complete? && l.c == c && s.conns[c].runs[l.k].Flush? && Subscribed(s, c)
  }

  // The part of the flush's list that gets written, duplicates included.
  ghost function Attempted(s: State, l: Label, c: ConnId): seq<Message>
    requires Enabled(s, l) && Flushes(s, l, c)
  {
    var ms := FlushList(s.conns[c].runs[l.k].shot.replay, l.keep, s.conns[c].sub.value.queue);
    if l.fail.Some? then ms[..l.fail.value] else ms
  }

  // A flush whose snapshot no longer holds id, above the position, and whose list does not reach id.
  ghost predicate GivesUp(s: State, l: Label, c: ConnId, id: int)
    requires Enabled(s, l)
  {
    && Flushes(s, l, c)
    && s.conns[c].sub.value.lastSeq < id <= s.conns[c].runs[l.k].shot.trimmed
    && !Listed(Attempted(s, l, c), id)
  }

  // A flush whose list reaches id above the position, or the drainer handing it to the live subscription.
  ghost predicate TakesUp(s: State, l: Label, c: ConnId, id: int)
    requires Enabled(s, l)
  {
    || (Flushes(s, l, c) && s.conns[c].sub.value.lastSeq < id && Listed(Attempted(s, l, c), id))
    || (l.Drain? && HandsOver(s, l.d, l.c, l.ok, c, id))
  }

  predicate HandsOver(s: State, d: nat, x: ConnId, ok: bool, c: ConnId, id: int)
    requires d < |s.drainers|
  {
    && s.drainers[d].Deliver? && s.drainers[d].todo != {} && s.drainers[d].e.id == id && x == c && ok
    && Subscribed(s, c) && s.conns[c].sub.value.state.Live? && s.conns[c].sub.value.lastSeq < id
  }

  ghost predicate SameSub(s: State, t: State, c: ConnId) {
    Subscribed(s, c) && Subscribed(t, c) && s.conns[c].sub.value.gen == t.conns[c].sub.value.gen
  }

  // A step loses an event exactly by giving it up, and keeps it lost exactly unless it takes it up.
  lemma LossStep(s: State, l: Label, c: ConnId, id: int)
    requires Inv(s) && Enabled(s, l) && SameSub(s, Step(s, l), c) && !s.conns[c].closed
    ensures id in Step(s, l).conns[c].sub.value.lost <==>
      GivesUp(s, l, c, id) || (id in s.conns[c].sub.value.lost && !TakesUp(s, l, c, id))
  {
    hide CompleteConn, VisitStep, DrainStep, IssueStep, Listed, Attempted;
    if l.Complete? && l.c == c {
      CompleteLosses(s, c, l.k, l.now, l.keep, l.fail, id);
    } else if l.Drain? {
      DrainLosses(s, l.d, l.c, l.ok, c, id);
    } else {
      OtherStepsKeepLost(s, l, c);
    }
  }

  lemma OtherStepsKeepLost(s: State, l: Label, c: ConnId)
    requires Enabled(s, l) && SameSub(s, Step(s, l), c) && !l.Drain? && !(l.Complete? && l.c == c)
    requires s.conns[c].sub.value.gen < s.conns[c].nextGen
    ensures Step(s, l).conns[c].sub.value.lost == s.conns[c].sub.value.lost
  {
    hide CompleteConn, DrainStep, Apply;
  }

  lemma CompleteLosses(s: State, c: ConnId, k: nat, now: int, keep: set<int>, fail: Option<nat>, id: int)
    requires Inv(s) && Enabled(s, Complete(c, k, now, keep, fail)) && !s.conns[c].closed
    requires SameSub(s, Step(s, Complete(c, k, now, keep, fail)), c)
    ensures id in Step(s, Complete(c, k, now, keep, fail)).conns[c].sub.value.lost <==>
      GivesUp(s, Complete(c, k, now, keep, fail), c, id)
      || (id in s.conns[c].sub.value.lost && !TakesUp(s, Complete(c, k, now, keep, fail), c, id))
  {
    hide Listed, Inv, FlushList;
    var conn := s.conns[c];
    if conn.runs[k].Flush? {
      FlushFacts(s, c, k);
      FlushLosesExactly(s.op.log, conn.sub.value, conn.runs[k].shot, keep, fail, id);
    }
  }

  lemma FlushFacts(s: State, c: ConnId, k: nat)
    requires Inv(s) && Subscribed(s, c) && !s.conns[c].closed && k in s.conns[c].runs && s.conns[c].runs[k].Flush?
    ensures Issued(s.op.log) && WrittenOk(s.op.log, s.conns[c].sub.value) && SnapshotOk(s.op.log, s.conns[c].runs[k].shot)
    ensures Increasing(s.conns[c].sub.value.queue) && forall m :: m in s.conns[c].sub.value.queue ==> IsIssued(s.op.log, m)
  {
    assert Good(ViewOf(s), c, s.conns[c]);
    assert PhaseInv(s.op.log, FrontOf(s.op), Flying(s.drainers, c, s.conns[c].user), s.conns[c], s.conns[c].runs[k]);
  }

  lemma FlushLosesExactly(log: seq<Message>, sub: Sub, shot: Snapshot, keep: set<int>, fail: Option<nat>, id: int)
    requires WrittenOk(log, sub) && SnapshotOk(log, shot) && FailPossible(sub, shot, keep, fail)
    requires Increasing(sub.queue) && forall m :: m in sub.queue ==> IsIssued(log, m)
    ensures var ms := FlushList(shot.replay, keep, sub.queue);
      var p := if fail.Some? then ms[..fail.value] else ms;
      id in DeliveredAll(Marked(sub, shot.gen, shot.trimmed, shot.gap), p).lost <==>
        (sub.lastSeq < id <= shot.trimmed && !Listed(p, id))
        || (id in sub.lost && !(sub.lastSeq < id && Listed(p, id)))
  {
    hide Listed, DeliveredAll, FlushList;
    var ms := FlushList(shot.replay, keep, sub.queue);
    var p := if fail.Some? then ms[..fail.value] else ms;
    var base := Marked(sub, shot.gen, shot.trimmed, shot.gap);
    ListFacts(log, shot, keep, sub.queue);
    MarkedOk(log, sub, shot.gen, shot.trimmed, shot.gap);
    assert forall m :: m in p ==> m in ms;
    if sub.lastSeq < id { DeliveredListed(log, base, p, id); } else { PassedStayLost(log, base, p, id); }
  }

  lemma DrainLosses(s: State, d: nat, x: ConnId, ok: bool, c: ConnId, id: int)
    requires Base(s) && DrainEnabled(s, d, x, ok) && SameSub(s, DrainStep(s, d, x, ok), c)
    ensures id in DrainStep(s, d, x, ok).conns[c].sub.value.lost <==>
      id in s.conns[c].sub.value.lost && !HandsOver(s, d, x, ok, c, id)
  {
    match s.drainers[d]
    case Deliver(e, todo) =>
      if todo != {} { DeliverLosses(s, d, x, ok, e, todo, c, id); }
    case Loop =>
    case _ =>
  }

  lemma DeliverLosses(s: State, d: nat, x: ConnId, ok: bool, e: Message, todo: set<ConnId>, c: ConnId, id: int)
    requires d < |s.drainers| && s.drainers[d] == Deliver(e, todo) && x in todo && Subscribed(s, c)
    ensures Subscribed(DeliverOne(s, d, x, ok, e, todo), c)
    ensures id in DeliverOne(s, d, x, ok, e, todo).conns[c].sub.value.lost <==>
      id in s.conns[c].sub.value.lost && !HandsOver(s, d, x, ok, c, id)
  {
  }

  // A subscription that was not there before has lost nothing yet.
  lemma FreshStep(s: State, l: Label, c: ConnId)
    requires Base(s) && Enabled(s, l) && Subscribed(Step(s, l), c) && !SameSub(s, Step(s, l), c)
    ensures Step(s, l).conns[c].sub.value.lost == {}
    ensures c in s.conns ==> Step(s, l).conns[c].sub.value.gen >= s.conns[c].nextGen
  {
    hide CompleteConn, DrainStep, VisitStep, Apply, Base;
    if c in s.conns {
      StepSubs(s, l, c);
      FreshKnown(s, l, c);
    } else {
      match l
      case Drain(d, x, ok) => DrainContinues(s, d, x, ok);
      case Visit(p, x, k, ok) => VisitContinues(s, p, x, k, ok);
      case _ =>
    }
  }

  lemma FreshKnown(s: State, l: Label, c: ConnId)
    requires Base(s) && Enabled(s, l) && c in s.conns && Subscribed(Step(s, l), c) && !SameSub(s, Step(s, l), c)
    ensures Step(s, l).conns[c].sub.value.lost == {}
  {
    hide FlushList, Base, DrainStep, VisitStep, CompleteConn, Apply, Pruned, Discards;
    if l.Drain? {
      DrainContinues(s, l.d, l.c, l.ok);
    } else if l.Visit? {
      VisitContinues(s, l.p, l.c, l.k, l.ok);
    } else if l.Complete? && l.c == c {
      CompleteContinues(if s.conns[c].runs[l.k].Collect? then Pruned(s.op, l.now) else s.op, s.conns[c], l.k, l.keep, l.fail);
    }
  }

  // ------------------------------------------------------------------ whole runs

  ghost predicate StepsBy(s: State, l: Label, t: State) {
    Enabled(s, l) && t == Step(s, l)
  }

  // At this step a flush gives id up for the subscription of generation gen.
  ghost predicate GivenUpAt(run: seq<State>, j: nat, c: ConnId, gen: nat, id: int)
    requires j + 1 < |run|
  {
    && Subscribed(run[j], c) && run[j].conns[c].sub.value.gen == gen
    && exists l :: StepsBy(run[j], l, run[j + 1]) && GivesUp(run[j], l, c, id)
  }

  ghost predicate TakenUpAt(run: seq<State>, j: nat, c: ConnId, gen: nat, id: int)
    requires j + 1 < |run|
  {
    && Subscribed(run[j], c) && run[j].conns[c].sub.value.gen == gen
    && exists l :: StepsBy(run[j], l, run[j + 1]) && TakesUp(run[j], l, c, id)
  }

  // A flush before i gave id up, and nothing has taken it up since.
  ghost predicate GivenUpForGood(run: seq<State>, j: nat, i: nat, c: ConnId, gen: nat, id: int)
    requires j < i < |run|
  {
    GivenUpAt(run, j, c, gen, id) && forall k: nat :: j < k < i ==> !TakenUpAt(run, k, c, gen, id)
  }

  ghost predicate GivenUp(run: seq<State>, i: nat, c: ConnId, gen: nat, id: int)
    requires i < |run|
  {
    exists j: nat :: j < i && GivenUpForGood(run, j, i, c, gen, id)
  }

  lemma {:induction false} Grows(run: seq<State>, j: nat, i: nat, c: ConnId)
    requires IsRun(run) && j <= i < |run| && c in run[j].conns
    ensures c in run[i].conns && run[j].conns[c].nextGen <= run[i].conns[c].nextGen
    ensures run[j].conns[c].closed ==> run[i].conns[c].closed
    decreases i
  {
    if i == j {
    } else {
      Grows(run, j, i - 1, c);
      RunSubs(run, i - 1, c);
    }
  }

  // An open subscription is younger than every earlier state in which the next one would have its number.
  lemma NotEarlier(run: seq<State>, j: nat, i: nat, c: ConnId)
    requires IsRun(run) && j <= i < |run| && Subscribed(run[j], c) && c in run[i].conns && !run[i].conns[c].closed
    ensures run[j].conns[c].sub.value.gen < run[i].conns[c].nextGen
  {
    Grows(run, j, i, c);
    DoomFacts(run, j, c);
  }

  // Lost is exactly what some flush into this subscription has given up and nothing has taken up since.
  lemma {:induction false} LostExactly(run: seq<State>, i: nat, c: ConnId, id: int)
    requires IsRun(run) && i < |run| && Subscribed(run[i], c) && !run[i].conns[c].closed
    ensures id in run[i].conns[c].sub.value.lost <==> GivenUp(run, i, c, run[i].conns[c].sub.value.gen, id)
  {
    assert i > 0;
    var before, gen := i - 1, run[i].conns[c].sub.value.gen;
    Reachable(run, before);
    assert StepAt(run, before);
    var l :| Enabled(run[before], l) && run[i] == Step(run[before], l);
    if SameSub(run[before], run[i], c) {
      Grows(run, before, i, c);
      LostExactly(run, before, c, id);
      StepVerdicts(run, before, c, gen, id);
      OneStepMore(run, before, c, gen, id);
    } else {
      FreshStep(run[before], l, c);
      forall j: nat | j < i ensures !GivenUpForGood(run, j, i, c, gen, id) {
        if GivenUpAt(run, j, c, gen, id) {
          Grows(run, j, before, c);
          Grows(run, before, i, c);
          NotEarlier(run, j, before, c);
        }
      }
    }
  }

  // One step on: given up at this step, or given up before and not taken up at it.
  lemma OneStepMore(run: seq<State>, i: nat, c: ConnId, gen: nat, id: int)
    requires i + 1 < |run|
    ensures GivenUp(run, i + 1, c, gen, id) <==>
      GivenUpAt(run, i, c, gen, id) || (GivenUp(run, i, c, gen, id) && !TakenUpAt(run, i, c, gen, id))
  {
    hide GivenUpAt, TakenUpAt;
    if GivenUp(run, i + 1, c, gen, id) {
      var j: nat :| j < i + 1 && GivenUpForGood(run, j, i + 1, c, gen, id);
      if j < i { assert GivenUpForGood(run, j, i, c, gen, id); }
    }
    if GivenUpAt(run, i, c, gen, id) {
      assert GivenUpForGood(run, i, i + 1, c, gen, id);
    } else if GivenUp(run, i, c, gen, id) && !TakenUpAt(run, i, c, gen, id) {
      var j: nat :| j < i && GivenUpForGood(run, j, i, c, gen, id);
      assert GivenUpForGood(run, j, i + 1, c, gen, id);
    }
  }

  // Whatever label one picks for the step, it gives up and takes up the same.
  lemma StepVerdicts(run: seq<State>, i: nat, c: ConnId, gen: nat, id: int)
    requires IsRun(run) && i + 1 < |run| && SameSub(run[i], run[i + 1], c) && gen == run[i + 1].conns[c].sub.value.gen
    requires !run[i].conns[c].closed
    ensures id in run[i + 1].conns[c].sub.value.lost <==>
      GivenUpAt(run, i, c, gen, id) || (id in run[i].conns[c].sub.value.lost && !TakenUpAt(run, i, c, gen, id))
  {
    hide Step, Enabled, GivesUp, TakesUp, Inv;
    Reachable(run, i);
    assert StepAt(run, i);
    forall k | StepsBy(run[i], k, run[i + 1])
      ensures id in run[i + 1].conns[c].sub.value.lost <==>
        GivesUp(run[i], k, c, id) || (id in run[i].conns[c].sub.value.lost && !TakesUp(run[i], k, c, id))
    {
      LossStep(run[i], k, c, id);
    }
    var l :| Enabled(run[i], l) && run[i + 1] == Step(run[i], l);
    assert StepsBy(run[i], l, run[i + 1]);
    if GivenUpAt(run, i, c, gen, id) {
      var k :| StepsBy(run[i], k, run[i + 1]) && GivesUp(run[i], k, c, id);
    } else if TakenUpAt(run, i, c, gen, id) {
      var k :| StepsBy(run[i], k, run[i + 1]) && TakesUp(run[i], k, c, id);
      assert !GivesUp(run[i], k, c, id);
    } else {
      assert !GivesUp(run[i], l, c, id) && !TakesUp(run[i], l, c, id);
    }
  }

  // A client has been moved past a broadcast event without being sent it exactly if a flush into its subscription gave the
  // event up and nothing took it up again.
  lemma SkippedExactly(run: seq<State>, i: nat, c: ConnId, m: Message)
    requires IsRun(run) && i < |run| && OpenSub(run[i], c)
    requires m in run[i].op.log && m.kind.Broadcast?
    requires run[i].conns[c].sub.value.since < m.id <= run[i].conns[c].sub.value.lastSeq
    ensures m !in run[i].conns[c].sub.value.written <==> GivenUp(run, i, c, run[i].conns[c].sub.value.gen, m.id)
  {
    PassedIsLost(run, i, c, m);
    LostExactly(run, i, c, m.id);
  }

  // ------------------------------------------------------------------ single flushes

  // A completion of this subscription is about to flush into it.
  ghost predicate OwnFlush(s: State, c: ConnId, k: nat) {
    && OpenSub(s, c) && k in s.conns[c].runs && s.conns[c].runs[k].Flush?
    && s.conns[c].runs[k].shot.gen == s.conns[c].sub.value.gen
  }

  // In every reachable state what flushes rely on holds.
  lemma OwnFlushReady(run: seq<State>, i: nat, c: ConnId, k: nat)
    requires IsRun(run) && i < |run| && OwnFlush(run[i], c, k)
    ensures var s, sub := run[i], run[i].conns[c].sub.value;
      FlushReady(s.op.log, Front(FrontOf(s.op), sub), Flying(s.drainers, c, s.conns[c].user), sub, s.conns[c].runs[k].shot)
  {
    Reachable(run, i);
    var s, conn := run[i], run[i].conns[c];
    assert Good(ViewOf(s), c, conn);
    assert PhaseInv(s.op.log, FrontOf(s.op), Flying(s.drainers, c, conn.user), conn, conn.runs[k]);
  }

  // Of the broadcast events that a complete flush moves the client past, it writes exactly those that were not trimmed
  // when its snapshot was taken, and those that the queue holds while the snapshot lists nothing newer.
  lemma FlushWrites(run: seq<State>, i: nat, c: ConnId, k: nat, now: int, keep: set<int>, m: Message)
    requires IsRun(run) && i < |run| && OwnFlush(run[i], c, k) && Enabled(run[i], Complete(c, k, now, keep, None))
    requires m in run[i].op.log && m.kind.Broadcast?
    requires var s' := Step(run[i], Complete(c, k, now, keep, None));
      run[i].conns[c].sub.value.lastSeq < m.id <= s'.conns[c].sub.value.lastSeq
    ensures var shot, sub := run[i].conns[c].runs[k].shot, run[i].conns[c].sub.value;
      m in Step(run[i], Complete(c, k, now, keep, None)).conns[c].sub.value.written <==>
      m.id > shot.trimmed || (m in sub.queue && forall x :: x in Targeted(shot.replay, keep) ==> x.id < m.id)
  {
    hide FlushReady, FlushList, DeliveredAll, Inv, OpenSub;
    OwnFlushReady(run, i, c, k);
    var s, sub := run[i], run[i].conns[c].sub.value;
    assert s.op.log[m.id - 1] == m by { IssuedAt(s.op.log, m); }
    FlushWritesExactly(s.op.log, Front(FrontOf(s.op), sub), Flying(s.drainers, c, s.conns[c].user), sub,
                       s.conns[c].runs[k].shot, keep, m.id - 1);
  }

  lemma IssuedAt(log: seq<Message>, m: Message)
    requires Issued(log) && m in log
    ensures 1 <= m.id <= |log| && log[m.id - 1] == m
  {
  }

  // A completion that reports no gap gives nothing up: whatever it moves its subscription past, it writes.
  lemma NoGapSkipsNothing(run: seq<State>, i: nat, c: ConnId, k: nat, now: int, keep: set<int>, fail: Option<nat>, m: Message)
    requires IsRun(run) && i < |run| && OwnFlush(run[i], c, k) && !run[i].conns[c].runs[k].shot.gap
    requires Enabled(run[i], Complete(c, k, now, keep, fail))
    requires m in run[i].op.log && m.kind.Broadcast?
    requires var s' := Step(run[i], Complete(c, k, now, keep, fail));
      run[i].conns[c].sub.value.lastSeq < m.id <= s'.conns[c].sub.value.lastSeq
    ensures m in Step(run[i], Complete(c, k, now, keep, fail)).conns[c].sub.value.written
  {
    hide FlushList, DeliveredAll, Inv, Covered;
    OwnFlushReady(run, i, c, k);
    var s, sub, shot := run[i], run[i].conns[c].sub.value, run[i].conns[c].runs[k].shot;
    IssuedAt(s.op.log, m);
    var ms := FlushList(shot.replay, keep, sub.queue);
    assert ms[..|ms|] == ms;
    FlushSkipsTrimmed(s.op.log, Front(FrontOf(s.op), sub), Flying(s.drainers, c, s.conns[c].user), sub, shot, keep,
                      if fail.Some? then fail.value else |ms|, m.id - 1);
  }

  lemma FlushSkipsTrimmed(log: seq<Message>, front: int, flying: Option<Message>, sub: Sub, shot: Snapshot, keep: set<int>,
                          j: nat, i: nat)
    requires FlushReady(log, front, flying, sub, shot) && j <= |FlushList(shot.replay, keep, sub.queue)|
    requires i < |log| && log[i].kind.Broadcast? && shot.trimmed < i + 1
    requires var r := FlushFailed(sub, shot.gen, shot.trimmed, shot.gap, FlushList(shot.replay, keep, sub.queue), j);
      sub.lastSeq < i + 1 <= r.lastSeq
    ensures log[i] in FlushFailed(sub, shot.gen, shot.trimmed, shot.gap, FlushList(shot.replay, keep, sub.queue), j).written
  {
    hide Listed, DeliveredAll, Delivered, Covered, FlushList;
    var ms := FlushList(shot.replay, keep, sub.queue);
    var base := Marked(sub, shot.gen, shot.trimmed, shot.gap);
    ListFacts(log, shot, keep, sub.queue);
    MarkedOk(log, sub, shot.gen, shot.trimmed, shot.gap);
    assert forall m :: m in ms[..j] ==> m in ms;
    DeliveredAllFacts(log, base, ms[..j]);
    DeliveredListed(log, base, ms[..j], i + 1);
    ListedPrefix(log, base, ms, j, i + 1);
    if !Listed(ms, i + 1) { FlushStaysBehind(log, front, flying, sub, shot, keep, j, i); }
  }

  // And what an own flush gives up, it reports as a gap.
  lemma GivenUpIsReported(run: seq<State>, i: nat, c: ConnId, l: Label, id: int)
    requires IsRun(run) && i < |run| && Enabled(run[i], l) && GivesUp(run[i], l, c, id) && OwnFlush(run[i], c, l.k)
    ensures run[i].conns[c].runs[l.k].shot.gap
  {
    OwnFlushReady(run, i, c, l.k);
  }
}
