/**
 * Why NoSilentSkip speaks of every completion of a subscription: one subscribe request can have two completions, its
 * own and one started by the lifecycle pass of a concurrent init, and the one that reports no gap may flush second.
 */
module GapReports {
  import opened Wrappers
  import opened EventLog
  import opened Subscription
  import opened Delivery
  import opened DeliveryInvariant
  import opened DeliverySteps

  function Last(run: seq<State>): State
    requires run != []
  {
    run[|run| - 1]
  }

  lemma Extend(run: seq<State>, l: Label) returns (r: seq<State>)
    requires IsRun(run) && Enabled(Last(run), l)
    ensures IsRun(r) && r == run + [Step(Last(run), l)]
  {
    r := run + [Step(Last(run), l)];
    forall i | 0 <= i < |r| - 1 ensures StepAt(r, i) {
      if i < |run| - 1 {
        assert StepAt(run, i);
        assert r[i] == run[i] && r[i + 1] == run[i + 1];
      } else {
        assert r[i] == Last(run) && r[i + 1] == Step(r[i], l);
      }
    }
  }

  // Equal but for the mark left by a discard.
  ghost predicate Alike(a: Conn, b: Conn) {
    && a.(sub := b.sub) == b
    && (a.sub.Some? <==> b.sub.Some?)
    && (a.sub.Some? ==> a.sub.value.(doomed := b.sub.value.doomed) == b.sub.value)
  }

  const PUSH: Label := Issue(Push(Broadcast, ""))

  lemma PushOne(s: State)
    requires s.drainers == [Loop] && s.op.dispatch
    ensures var t := Step(s, PUSH);
      && t.drainers == [Loop] && t.op.log == s.op.log + [Message(|s.op.log| + 1, Broadcast, "")]
      && t.conns.Keys == s.conns.Keys && t.op.owner == s.op.owner && t.owner == s.owner
      && forall c :: c in s.conns ==> Alike(t.conns[c], s.conns[c])
  {
    hide Buffered, Ids;
  }

  lemma AlikeTransitive(a: Conn, b: Conn, c: Conn)
    requires Alike(a, b) && Alike(b, c)
    ensures Alike(a, c)
  {
  }

  // Publishes n broadcasts while the drainer stands still.
  lemma {:induction false} PushMany(run: seq<State>, n: nat) returns (r: seq<State>)
    requires IsRun(run) && Last(run).drainers == [Loop]
    ensures IsRun(r) && Last(r).drainers == [Loop] && run <= r
    ensures |Last(r).op.log| == |Last(run).op.log| + n && Last(run).op.log <= Last(r).op.log
    ensures forall i :: |Last(run).op.log| <= i < |Last(r).op.log| ==> Last(r).op.log[i].kind == Broadcast
    ensures Last(r).conns.Keys == Last(run).conns.Keys
    ensures Last(r).op.owner == Last(run).op.owner && Last(r).owner == Last(run).owner
    ensures forall c :: c in Last(run).conns ==> Alike(Last(r).conns[c], Last(run).conns[c])
  {
    hide Alike, Step;
    r := run;
    if n == 0 {
      forall c | c in Last(run).conns ensures Alike(Last(run).conns[c], Last(run).conns[c]) {
        AlikeItself(Last(run).conns[c]);
      }
    } else {
      var mid := PushMany(run, n - 1);
      DrainerRuns(mid);
      PushOne(Last(mid));
      r := Extend(mid, PUSH);
      forall c | c in Last(run).conns ensures Alike(Last(r).conns[c], Last(run).conns[c]) {
        AlikeTransitive(Last(r).conns[c], Last(mid).conns[c], Last(run).conns[c]);
      }
    }
  }

  lemma DrainerRuns(run: seq<State>)
    requires IsRun(run) && Last(run).drainers == [Loop]
    ensures Last(run).op.dispatch
  {
    Reachable(run, |run| - 1);
  }

  lemma AlikeItself(a: Conn)
    ensures Alike(a, a)
  {
  }

  // ------------------------------------------------------------------ the run

  const FIRST: Message := Message(1, Broadcast, "")

  const ONE_EVENT: Op := Op([FIRST], [FIRST], map[], [FIRST], true, false, Unset, "", multiset{})

  const OWNED: Op := ONE_EVENT.(owner := "u", status := Running)

  function Begin(runs: map<nat, Phase>, sub: Sub): State {
    State("u", ONE_EVENT, [Loop], map[0 := Conn("u", "", true, false, Some(sub), runs, 1)], map[], NO_ROUTING)
  }

  function Going(runs: map<nat, Phase>, sub: Sub, pass: Pass): State {
    State("u", OWNED, [Loop], map[0 := Conn("u", "", true, false, Some(sub), runs, 1)], map[0 := pass], NO_ROUTING)
  }

  const OWN: Sub := Fresh(false, 0, 0)

  // The snapshot that reports no gap.
  const CLEAN: Snapshot := Snapshot(0, 0, 1, 0, [FIRST], false)

  lemma To(run: seq<State>, l: Label, s: State) returns (r: seq<State>)
    requires IsRun(run) && Enabled(Last(run), l) && Step(Last(run), l) == s
    ensures IsRun(r) && Last(r) == s
  {
    r := Extend(run, l);
  }

  // A connection registers and a first event is issued.
  lemma Connected() returns (run: seq<State>)
    ensures IsRun(run)
    ensures Last(run) == State("u", ONE_EVENT, [Loop], map[0 := Conn("u", "", true, false, None, map[], 0)], map[], NO_ROUTING)
  {
    var s0 := State("u", NEW_OP, [], map[], map[], NO_ROUTING);
    var s1 := s0.(conns := map[0 := Conn("u", "", true, false, None, map[], 0)]);
    run := To([s0], Connect(0, "u", ""), s1);
    assert Apply(NEW_OP, Push(Broadcast, "")) == ONE_EVENT;
    run := To(run, Issue(Push(Broadcast, "")), s1.(op := ONE_EVENT, drainers := [Loop]));
  }

  // It subscribes before init and is parked.
  lemma Parks() returns (run: seq<State>)
    ensures IsRun(run) && Last(run) == Begin(map[0 := Recheck], Parked(OWN))
  {
    run := Connected();
    var r: map<nat, Phase> := map[][0 := Start];
    run := To(run, Subscribe(0, 0, false), Begin(r, OWN));
    r := r[0 := Park];
    run := To(run, Complete(0, 0, 0, {}, None), Begin(r, OWN));
    r := r[0 := Recheck];
    run := To(run, Complete(0, 0, 0, {}, None), Begin(r, Parked(OWN)));
    assert r == map[0 := Recheck];
  }

  // Init's lifecycle pass wakes it while its own completion is still at work.
  lemma Wakes() returns (run: seq<State>)
    ensures IsRun(run) && Last(run) == Going(map[0 := Recheck, 1 := Start], OWN, Visiting({}))
  {
    run := Parks();
    var r := map[0 := Recheck];
    run := To(run, Initialise(0), Going(r, Parked(OWN), Announce));
    run := To(run, Visit(0, 0, 0, true), Going(r, Parked(OWN), Listing("u")));
    assert RegisteredOf(Last(run), "u") == {0};
    run := To(run, Visit(0, 0, 0, true), Going(r, Parked(OWN), Visiting({0})));
    assert {0} - {0} == {};
    run := To(run, Visit(0, 0, 0, true), Going(r, Parked(OWN), Waking({}, 0)));
    run := To(run, Visit(0, 0, 1, true), Going(map[0 := Recheck, 1 := Start], OWN, Visiting({})));
  }

  // Its own completion goes on, too.
  lemma GoesOn() returns (run: seq<State>)
    ensures IsRun(run)
    ensures Last(run) == Going(map[0 := ReadSince, 1 := Start], OWN, Visiting({}))
  {
    run := Wakes();
    var r: map<nat, Phase> := map[0 := Recheck, 1 := Start];
    r := r[0 := Unpark];
    run := To(run, Complete(0, 0, 0, {}, None), Going(r, OWN, Visiting({})));
    r := r[0 := Start];
    run := To(run, Complete(0, 0, 0, {}, None), Going(r, OWN, Visiting({})));
    r := r[0 := ReadSince];
    run := To(run, Complete(0, 0, 0, {}, None), Going(r, OWN, Visiting({})));
    assert r == map[0 := ReadSince, 1 := Start];
  }

  // It takes a snapshot of the single event issued so far.
  lemma TwoCompletions() returns (run: seq<State>)
    ensures IsRun(run)
    ensures Last(run) == Going(map[0 := Flush(CLEAN), 1 := Start], OWN, Visiting({}))
  {
    run := GoesOn();
    var r: map<nat, Phase> := map[0 := ReadSince, 1 := Start];
    r := r[0 := Collect(0, 0)];
    run := To(run, Complete(0, 0, 0, {}, None), Going(r, OWN, Visiting({})));
    assert Pruned(OWNED, 0) == OWNED;
    CleanShot();
    r := r[0 := Flush(CLEAN)];
    run := To(run, Complete(0, 0, 0, {}, None), Going(r, OWN, Visiting({})));
    assert r == map[0 := Flush(CLEAN), 1 := Start];
  }

  lemma CleanShot()
    ensures TakeShot(OWNED, 0, 0) == CLEAN
  {
    assert [FIRST][..0] == [];
    assert Replay([FIRST], 0, map[], 0) == [FIRST];
  }

  // ------------------------------------------------------------------ the two flushes

  // Flushing a snapshot taken after the first event was trimmed skips it for good.
  lemma LateFlushSkips(op: Op, sub: Sub)
    requires Wf(op) && |op.log| == 1001 && forall m :: m in op.log ==> m.kind.Broadcast?
    requires sub.queue == [] && sub.written == [] && sub.lastSeq == 0
    ensures var shot := TakeShot(op, 0, 0);
      var r := Flushed(sub, 0, shot.trimmed, shot.gap, FlushList(shot.replay, {}, sub.queue));
      FIRST !in r.written && r.lastSeq >= 1 && r.state == Live && r.queue == []
  {
    var shot := TakeShot(op, 0, 0);
    assert Trimmed(op) == 501;
    ReplayFacts(op.log, Trimmed(op), op.open, 0);
    TargetedFacts(shot.replay, {});
    var ms := FlushList(shot.replay, {}, []);
    assert ms == Targeted(shot.replay, {});
    assert FIRST !in ms;
    var last := op.log[1000];
    assert last in op.log && last.id == 1001;
    assert last in shot.replay;
    WrittenFrom(Marked(sub, 0, shot.trimmed, shot.gap), ms);
  }

  // Then flushing the earlier snapshot, which saw no gap, brings nothing and reports no gap.
  lemma CleanFlushBringsNothing(sub: Sub)
    requires sub.lastSeq >= 1 && sub.queue == []
    ensures Flushed(sub, 0, 0, false, FlushList([FIRST], {}, sub.queue)).written == sub.written
    ensures Flushed(sub, 0, 0, false, FlushList([FIRST], {}, sub.queue)).lastSeq == sub.lastSeq
  {
    assert [FIRST][..0] == [];
    assert Targeted([FIRST], {}) == [FIRST];
    assert FlushList([FIRST], {}, []) == [FIRST];
    var base := Marked(sub, 0, 0, false);
    assert DeliveredAll(base, [FIRST]) == Delivered(DeliveredAll(base, []), FIRST);
  }

  // 1001 events issued, the clean snapshot still held, the woken completion at the given phase.
  ghost predicate Stage(s: State, woken: Phase) {
    && s.op.owner == "u" && |s.op.log| == 1001 && s.op.log[0] == FIRST && (forall m :: m in s.op.log ==> m.kind.Broadcast?)
    && 0 in s.conns && StageConn(s.conns[0], woken)
  }

  ghost predicate StageConn(conn: Conn, woken: Phase) {
    && conn.user == "u" && conn.nextGen == 1 && conn.runs == map[0 := Flush(CLEAN), 1 := woken] && conn.sub.Some?
    && conn.sub.value.gen == 0 && conn.sub.value.since == 0 && conn.sub.value.lastSeq == 0
    && conn.sub.value.queue == [] && conn.sub.value.written == []
  }

  lemma ManyIssued() returns (run: seq<State>)
    ensures IsRun(run) && Stage(Last(run), Start)
  {
    run := TwoCompletions();
    ghost var before := Last(run);
    run := PushMany(run, 1000);
    assert Alike(Last(run).conns[0], before.conns[0]);
  }

  // The woken completion reads on to its next phase.
  lemma Advances(run: seq<State>, phase: Phase, next: Phase) returns (r: seq<State>)
    requires IsRun(run) && Stage(Last(run), phase)
    requires match phase
      case Start => next == ReadSince
      case ReadSince => next == Collect(0, 0)
      case Collect(gen, since) => next == Flush(TakeShot(Pruned(Last(run).op, 0), gen, since))
      case _ => false
    ensures IsRun(r) && Stage(Last(r), next)
    ensures phase.Collect? ==> next == Flush(TakeShot(Last(r).op, phase.gen, phase.since))
  {
    r := Extend(run, Complete(0, 1, 0, {}, None));
  }

  lemma LastWf(run: seq<State>)
    requires IsRun(run)
    ensures Wf(Last(run).op)
  {
    Reachable(run, |run| - 1);
  }

  // The client is past the first event without having been sent it; the clean snapshot is still to be flushed.
  ghost predicate Skipped(s: State) {
    && s.op.log != [] && s.op.log[0] == FIRST && 0 in s.conns && s.conns[0].nextGen == 1
    && 0 in s.conns[0].runs && s.conns[0].runs[0] == Flush(CLEAN) && s.conns[0].sub.Some?
    && var sub := s.conns[0].sub.value; sub.since == 0 && sub.gen == 0 && sub.queue == [] && sub.lastSeq >= 1 && FIRST !in sub.written
  }

  lemma FlushesLate(run: seq<State>, shot: Snapshot) returns (r: seq<State>)
    requires IsRun(run) && Stage(Last(run), Flush(shot)) && shot == TakeShot(Last(run).op, 0, 0)
    ensures IsRun(r) && Skipped(Last(r))
  {
    LastWf(run);
    var conn := Last(run).conns[0];
    LateFlushSkips(Last(run).op, conn.sub.value);
    DeliveryShape(Marked(conn.sub.value, 0, shot.trimmed, shot.gap), FlushList(shot.replay, {}, conn.sub.value.queue));
    r := Extend(run, Complete(0, 1, 0, {}, None));
    assert Last(r).conns[0] == FlushConn(conn, 1, shot, {}, None);
  }

  // The woken completion runs first, after the event has been trimmed.
  lemma LosesFirst() returns (run: seq<State>)
    ensures IsRun(run) && Skipped(Last(run))
  {
    hide Skipped, TakeShot, IsRun;
    run := ManyIssued();
    run := Advances(run, Start, ReadSince);
    run := Advances(run, ReadSince, Collect(0, 0));
    run := Advances(run, Collect(0, 0), Flush(TakeShot(Pruned(Last(run).op, 0), 0, 0)));
    run := FlushesLate(run, Last(run).conns[0].runs[1].shot);
  }

  // In the last step of this run a completion flushes a snapshot without a gap into the connection's only subscription,
  // and still the client has been moved past a broadcast event that was never written to it.
  lemma NoGapReportedYetSkipped() returns (run: seq<State>)
    ensures IsRun(run) && |run| >= 2
    ensures var s, s' := run[|run| - 2], run[|run| - 1];
      && 0 in s.conns && 0 in s.conns[0].runs && s.conns[0].runs[0] == Flush(CLEAN) && !CLEAN.gap
      && Enabled(s, Complete(0, 0, 0, {}, None)) && s' == Step(s, Complete(0, 0, 0, {}, None))
      && 0 in s'.conns && s'.conns[0].nextGen == 1 && s'.conns[0].sub.Some? && s'.conns[0].sub.value.since == 0
      && FIRST in s'.op.log && FIRST.id <= s'.conns[0].sub.value.lastSeq && FIRST !in s'.conns[0].sub.value.written
  {
    run := LosesFirst();
    LastFlush(Last(run));
    run := Extend(run, Complete(0, 0, 0, {}, None));
  }

  lemma LastFlush(s: State)
    requires Skipped(s)
    ensures Enabled(s, Complete(0, 0, 0, {}, None))
    ensures var s' := Step(s, Complete(0, 0, 0, {}, None));
      && s'.op == s.op && 0 in s'.conns && s'.conns[0].nextGen == 1 && s'.conns[0].sub.Some? && s'.conns[0].sub.value.since == 0
      && 1 <= s'.conns[0].sub.value.lastSeq && FIRST !in s'.conns[0].sub.value.written
  {
    CleanFlushBringsNothing(s.conns[0].sub.value);
    DeliveryShape(Marked(s.conns[0].sub.value, 0, 0, false), FlushList([FIRST], {}, []));
  }
}
