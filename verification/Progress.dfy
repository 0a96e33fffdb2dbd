/** Completions and the drainer get somewhere: each of their sections brings them closer to their end. */
module Progress {
  import opened Wrappers
  import opened EventLog
  import opened Subscription
  import opened Delivery
  import opened Continuity
  import opened DeliveryInvariant
  import opened DeliverySteps
  import opened DeliveryTheorems
  import opened Losses

  // ------------------------------------------------------------------ completions

  function Rank(phase: Phase): nat {
    match phase
    case Park => 9
    case Recheck => 8
    case Unpark => 7
    case Start => 6
    case ReadSince => 5
    case Collect(_, _) => 4
    case Flush(_) => 3
    case Forbidden => 3
    case Tell => 2
    case Hangup => 1
  }

  function RankOf(conn: Conn, k: nat): nat {
    if k in conn.runs then Rank(conn.runs[k]) else 0
  }

  function RankIn(s: State, c: ConnId, k: nat): nat {
    if c in s.conns then RankOf(s.conns[c], k) else 0
  }

  // A section of completion k is run at this step.
  ghost predicate RunsSection(s: State, t: State, c: ConnId, k: nat) {
    exists now, keep, fail :: StepsBy(s, Complete(c, k, now, keep, fail), t)
  }

  // Once the owner is named, every section of a completion lowers its rank.
  lemma SectionLowersRank(s: State, t: State, c: ConnId, k: nat)
    requires RunsSection(s, t, c, k) && s.op.owner != ""
    ensures RankIn(t, c, k) < RankIn(s, c, k)
  {
    var now, keep, fail :| StepsBy(s, Complete(c, k, now, keep, fail), t);
    OwnSection(if s.conns[c].runs[k].Collect? then Pruned(s.op, now) else s.op, s.conns[c], k, keep, fail);
  }

  lemma OwnSection(op: Op, conn: Conn, k: nat, keep: set<int>, fail: Option<nat>)
    requires k in conn.runs && op.owner != ""
    requires conn.runs[k].Flush? && conn.sub.Some? ==> FailPossible(conn.sub.value, conn.runs[k].shot, keep, fail)
    ensures RankOf(CompleteConn(op, conn, k, keep, fail), k) < RankOf(conn, k)
  {
    hide FlushList, TakeShot, Flushed, FlushFailed;
  }

  // And no other step raises the rank of a completion that is running.
  lemma OthersKeepRank(s: State, l: Label, c: ConnId, k: nat)
    requires Enabled(s, l) && RankIn(s, c, k) > 0 && !(l.Complete? && l.c == c && l.k == k)
    ensures RankIn(Step(s, l), c, k) <= RankIn(s, c, k)
  {
    hide Rank, DrainStep, VisitStep, CompleteConn, Apply;
    if l.Complete? && l.c == c {
      var op := if s.conns[c].runs[l.k].Collect? then Pruned(s.op, l.now) else s.op;
      CompleteContinues(op, s.conns[c], l.k, l.keep, l.fail);
      assert k in s.conns[c].runs - {l.k};
    } else if l.Drain? {
      DrainContinues(s, l.d, l.c, l.ok);
    } else if l.Visit? {
      VisitContinues(s, l.p, l.c, l.k, l.ok);
    }
  }

  lemma OwnerRemains(s: State, l: Label)
    requires Base(s) && Enabled(s, l) && s.op.owner != ""
    ensures Step(s, l).op.owner != ""
  {
    hide CompleteConn, ObserveOne;
    if l.Issue? { IssueKinds(s.op, l.cmd); }
  }

  lemma RankStep(run: seq<State>, n: nat, c: ConnId, k: nat)
    requires IsRun(run) && n + 1 < |run| && run[n].op.owner != "" && RankIn(run[n], c, k) > 0
    ensures RankIn(run[n + 1], c, k) + (if RunsSection(run[n], run[n + 1], c, k) then 1 else 0) <= RankIn(run[n], c, k)
    ensures run[n + 1].op.owner != ""
  {
    hide Step, Enabled, Inv, RankIn;
    Reachable(run, n);
    assert StepAt(run, n);
    var l :| Enabled(run[n], l) && run[n + 1] == Step(run[n], l);
    OwnerRemains(run[n], l);
    if l.Complete? && l.c == c && l.k == k {
      assert StepsBy(run[n], Complete(c, k, l.now, l.keep, l.fail), run[n + 1]);
      assert RunsSection(run[n], run[n + 1], c, k);
    } else {
      OthersKeepRank(run[n], l, c, k);
    }
    if RunsSection(run[n], run[n + 1], c, k) { SectionLowersRank(run[n], run[n + 1], c, k); }
  }

  // The number of sections that completion k runs between two states.
  ghost function Sections(run: seq<State>, i: nat, j: nat, c: ConnId, k: nat): nat
    requires i <= j < |run|
    decreases j
  {
    if i == j then 0
    else Sections(run, i, j - 1, c, k) + if RunsSection(run[j - 1], run[j], c, k) then 1 else 0
  }

  // Completion k is running in all these states.
  ghost predicate RunsThrough(run: seq<State>, i: nat, j: nat, c: ConnId, k: nat)
    requires i <= j < |run|
  {
    forall n :: i <= n <= j ==> RankIn(run[n], c, k) > 0
  }

  // Whatever interleaves with it, a completion that is still running once the owner is named has run fewer sections than
  // its rank then; so it is over within nine.
  lemma {:induction false} CompletionsEnd(run: seq<State>, i: nat, j: nat, c: ConnId, k: nat)
    requires IsRun(run) && i <= j < |run| && run[i].op.owner != "" && RunsThrough(run, i, j, c, k)
    ensures Sections(run, i, j, c, k) + RankIn(run[j], c, k) <= RankIn(run[i], c, k) <= 9
    ensures run[j].op.owner != ""
    decreases j
  {
    hide RankIn, RunsSection;
    if i == j {
      RankBound(run[i], c, k);
    } else {
      var before := j - 1;
      CompletionsEnd(run, i, before, c, k);
      RankStep(run, before, c, k);
    }
  }

  lemma RankBound(s: State, c: ConnId, k: nat)
    ensures RankIn(s, c, k) <= 9
  {
  }

  // ------------------------------------------------------------------ the drainer

  function Stage(d: Drainer): nat {
    match d
    case ReadOwner(_) => 7
    case List(_, _) => 6
    case Observe(_, _, _, _, _) => 5
    case Deliver(_, _) => 4
    case Failed(_, _, _) => 4
    case Report(_) => 3
    case Scan => 2
    case Closing(_) => 1
    case ClosingOne(_, _) => 1
    case Loop => 0
  }

  function Pending(d: Drainer): nat {
    match d
    case Observe(_, todo, _, _, _) => |todo|
    case Deliver(_, todo) => 2 * |todo|
    case Failed(_, todo, _) => 2 * |todo| + 1
    case Closing(todo) => 2 * |todo|
    case ClosingOne(todo, _) => 2 * |todo| + 1
    case _ => 0
  }

  // Work ahead: queued events and a raised overflow, then the stage of the current event, then the connections left.
  datatype Work = Work(events: nat, stage: nat, connections: nat)

  function WorkOf(op: Op, d: Drainer): Work {
    Work(|op.queue| + (if op.overflow then 1 else 0), Stage(d), Pending(d))
  }

  predicate Less(a: Work, b: Work) {
    || a.events < b.events
    || (a.events == b.events && a.stage < b.stage)
    || (a.events == b.events && a.stage == b.stage && a.connections < b.connections)
  }

  predicate Progressed(s: State, t: State) {
    t.drainers == []
    || (|s.drainers| == 1 && |t.drainers| == 1 && Less(WorkOf(t.op, t.drainers[0]), WorkOf(s.op, s.drainers[0])))
  }

  // Every section of the drainer ends it or leaves it less to do, in the lexicographic order of its work.
  lemma DrainerProgresses(s: State, d: nat, c: ConnId, ok: bool)
    requires Base(s) && DrainEnabled(s, d, c, ok)
    ensures Progressed(s, DrainStep(s, d, c, ok))
  {
    hide Base, Progressed, LoopTop;
    OnlyDrainer(s, d, c, ok);
    match s.drainers[0]
    case Loop => LoopProgresses(s);
    case Scan => ClosingProgresses(s, c, ok);
    case Closing(_) => ClosingProgresses(s, c, ok);
    case ClosingOne(_, _) => ClosingProgresses(s, c, ok);
    case _ => EventProgresses(s, c, ok);
  }

  lemma ClosingProgresses(s: State, c: ConnId, ok: bool)
    requires |s.drainers| == 1 && DrainEnabled(s, 0, c, ok) && Stage(s.drainers[0]) in {1, 2}
    ensures Progressed(s, DrainStep(s, 0, c, ok))
  {
    hide DeliverOne, ObserveOne, LoopTop, Registered, CloseIn, LookedAt, Chosen, RegisteredOf;
    match s.drainers[0]
    case Closing(todo) => if c in todo { FewerLeft(todo, c); }
    case ClosingOne(_, x) => CloseKeeps(s, x);
    case _ =>
  }

  lemma EventProgresses(s: State, c: ConnId, ok: bool)
    requires |s.drainers| == 1 && DrainEnabled(s, 0, c, ok) && Stage(s.drainers[0]) > 2
    ensures Progressed(s, DrainStep(s, 0, c, ok))
  {
    hide DeliverOne, LoopTop, ObserveOne, Chosen, RegisteredOf, CloseIn;
    match s.drainers[0]
    case Failed(_, _, x) => CloseKeeps(s, x);
    case Observe(e, todo, all, executors, preferred) =>
      if todo != {} { ObserveProgresses(s, c, e, todo, all, executors, preferred); }
    case Deliver(e, todo) => if todo != {} { DeliverProgresses(s, c, ok, e, todo); }
    case _ =>
  }

  lemma LoopProgresses(s: State)
    requires s.drainers == [Loop]
    ensures Progressed(s, LoopTop(s, 0))
  {
    hide DoomAll;
  }

  lemma CloseKeeps(s: State, x: ConnId)
    ensures CloseIn(s, x).drainers == s.drainers && CloseIn(s, x).op == s.op
  {
  }

  lemma ObserveProgresses(s: State, c: ConnId, e: Message, todo: set<ConnId>, all: set<ConnId>, executors: set<ConnId>,
                          preferred: set<ConnId>)
    requires c in todo
    ensures ObserveOne(s, c, e, todo, all, executors, preferred).Observe?
    ensures Pending(ObserveOne(s, c, e, todo, all, executors, preferred)) < |todo|
  {
    FewerLeft(todo, c);
  }

  lemma DeliverProgresses(s: State, c: ConnId, ok: bool, e: Message, todo: set<ConnId>)
    requires s.drainers == [Deliver(e, todo)] && c in todo
    ensures Progressed(s, DeliverOne(s, 0, c, ok, e, todo))
  {
    hide Offered;
    FewerLeft(todo, c);
  }

  lemma FewerLeft(todo: set<ConnId>, c: ConnId)
    requires c in todo
    ensures |todo - {c}| == |todo| - 1
  {
  }

  // Only new events give it more to do: every step but an issue and its own leaves its work as it is.
  lemma WorkIsKept(s: State, l: Label)
    requires Base(s) && Enabled(s, l) && !l.Issue? && !l.Drain? && s.drainers != []
    ensures Step(s, l).drainers == s.drainers && WorkOf(Step(s, l).op, s.drainers[0]) == WorkOf(s.op, s.drainers[0])
  {
    hide Stage, Pending, CompleteConn;
  }

  // ------------------------------------------------------------------ lifecycle passes

  function PassWork(pass: Pass): Work {
    match pass
    case Announce => Work(0, 3, 0)
    case Listing(_) => Work(0, 2, 0)
    case Visiting(todo) => Work(0, 1, 2 * |todo|)
    case Waking(todo, _) => Work(0, 1, 2 * |todo| + 1)
    case Finished => Work(0, 0, 0)
  }

  // Every section of a lifecycle pass leaves it less to do.
  lemma PassProgresses(s: State, p: nat, c: ConnId, k: nat, ok: bool)
    requires VisitEnabled(s, p, c, k)
    ensures p in VisitStep(s, p, c, k, ok).passes && Less(PassWork(VisitStep(s, p, c, k, ok).passes[p]), PassWork(s.passes[p]))
  {
    hide CloseIn, WakeConn;
    if s.passes[p].Visiting? && s.passes[p].todo != {} { FewerLeft(s.passes[p].todo, c); }
  }
}
