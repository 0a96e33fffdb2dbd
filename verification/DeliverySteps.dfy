/** Every labelled step of the delivery protocol keeps the invariant. */
module DeliverySteps {
  import opened Wrappers
  import opened EventLog
  import opened Subscription
  import opened Delivery
  import opened DeliveryInvariant

  // ------------------------------------------------------------------ how a view may change around a connection

  // The view changes, but nothing this connection depends on gets worse.
  lemma Unaffected(v: View, v': View, c: ConnId, conn: Conn)
    requires Good(v, c, conn)
    requires v'.log == v.log && v'.f == v.f && v'.owner == v.owner && v'.opOwner == v.opOwner
    requires Flying(v'.ds, c, conn.user) == Flying(v.ds, c, conn.user)
    requires !conn.closed ==> DoomOk(v', c, conn) && WakeOk(v', c, conn)
    ensures Good(v', c, conn)
  {
  }

  // An event is issued and queued.
  lemma Grown(v: View, v': View, c: ConnId, conn: Conn, m: Message)
    requires Good(v, c, conn) && v.f <= |v.log|
    requires v'.log == v.log + [m] && v'.f == v.f && v'.owner == v.owner && v'.opOwner == v.opOwner
    requires Flying(v'.ds, c, conn.user) == Flying(v.ds, c, conn.user)
    requires !conn.closed ==> DoomOk(v', c, conn) && v'.pass0 == v.pass0
    ensures Good(v', c, conn)
  {
    if !conn.closed {
      GrownSubs(v.log, v.f, Flying(v.ds, c, conn.user), conn, m);
    }
  }

  lemma GrownSubs(log: seq<Message>, f: int, flying: Option<Message>, conn: Conn, m: Message)
    requires SubsInv(log, f, flying, conn) && f <= |log|
    ensures SubsInv(log + [m], f, flying, conn)
  {
    if conn.sub.Some? { GrowKeeps(log, f, flying, conn.sub.value, m); }
    forall k | k in conn.runs ensures PhaseInv(log + [m], f, flying, conn, conn.runs[k]) {
      assert PhaseInv(log, f, flying, conn, conn.runs[k]);
      if conn.runs[k].Flush? {
        if conn.sub.Some? {
          GrowKeepsHold(log, f, flying, conn.sub.value, conn.runs[k].shot, m);
        } else {
          GrowKeepsShot(log, conn.runs[k].shot, m);
        }
      }
    }
  }

  lemma GrowKeepsShot(log: seq<Message>, shot: Snapshot, m: Message)
    requires SnapshotOk(log, shot)
    ensures SnapshotOk(log + [m], shot)
  {
    assert forall x :: IsIssued(log, x) ==> IsIssued(log + [m], x);
  }

  // Queued events are discarded.
  lemma DoomedGood(v: View, v': View, c: ConnId, conn: Conn)
    requires Good(v, c, conn)
    requires v'.log == v.log && v'.owner == v.owner && v'.opOwner == v.opOwner && v'.pass0 == v.pass0
    requires Flying(v'.ds, c, conn.user) == Flying(v.ds, c, conn.user)
    requires v'.overflow || ClosingCovers(v'.ds, c)
    requires InFlightId(v'.ds) == InFlightId(v.ds) <= v.f <= v'.f
    ensures Good(v', c, DoomConn(conn, v.f))
  {
    if !conn.closed {
      DoomedSubs(v.log, v.f, v'.f, Flying(v.ds, c, conn.user), conn);
      DoomedRuns(v.opOwner != "", conn.user == v.owner, conn, v.f);
    }
  }

  lemma DoomedRuns(ownerSet: bool, isOwner: bool, conn: Conn, f: int)
    requires RunsInv(ownerSet, isOwner, conn)
    ensures RunsInv(ownerSet, isOwner, DoomConn(conn, f))
  {
  }

  lemma DoomedSubs(log: seq<Message>, f: int, f': int, flying: Option<Message>, conn: Conn)
    requires SubsInv(log, f, flying, conn)
    ensures SubsInv(log, f', flying, DoomConn(conn, f))
  {
    var conn' := DoomConn(conn, f);
    if conn.sub.Some? { DoomKeeps(log, f, f', flying, conn.sub.value); }
    forall k | k in conn.runs ensures PhaseInv(log, f', flying, conn', conn.runs[k]) {
      assert PhaseInv(log, f, flying, conn, conn.runs[k]);
      if conn.sub.Some? && conn.runs[k].Flush? {
        DoomKeepsHold(log, f, f', flying, conn.sub.value, conn.runs[k].shot);
      }
    }
  }

  // The drainer takes the next event; with no overflow pending, no open subscription is doomed.
  lemma PoppedGood(v: View, v': View, c: ConnId, conn: Conn)
    requires Good(v, c, conn) && Issued(v.log) && !v.overflow && 0 <= v.f < |v.log|
    requires v.ds == [Loop] && v'.ds == [ReadOwner(v.log[v.f])]
    requires v' == v.(f := v.f + 1, ds := v'.ds)
    ensures Good(v', c, conn)
  {
    if !conn.closed {
      assert conn.sub.Some? ==> conn.sub.value.doomed.None?;
      if conn.sub.Some? { PopKeeps(v.log, v.f, conn.sub.value); }
      forall k | k in conn.runs ensures PhaseInv(v.log, v.f + 1, Some(v.log[v.f]), conn, conn.runs[k]) {
        assert PhaseInv(v.log, v.f, None, conn, conn.runs[k]);
        if conn.sub.Some? && conn.runs[k].Flush? { PopKeepsHold(v.log, v.f, conn.sub.value, conn.runs[k].shot); }
      }
    }
  }

  // The in-flight event passes a connection by: it is not a broadcast, the connection cannot hold or write events yet,
  // or it has no subscription.
  lemma PassedBy(v: View, v': View, c: ConnId, conn: Conn)
    requires Good(v, c, conn) && v' == v.(ds := v'.ds)
    requires Flying(v'.ds, c, conn.user) == None
    requires !conn.closed ==> DoomOk(v', c, conn)
    requires Flying(v.ds, c, conn.user).Some? && !conn.closed ==>
      || !Flying(v.ds, c, conn.user).value.kind.Broadcast?
      || conn.sub.None?
      || (!InState(conn, Live) && forall k :: k in conn.runs ==> !Resuming(conn.runs[k]))
    ensures Good(v', c, conn)
  {
    if !conn.closed && Flying(v.ds, c, conn.user).Some? {
      var e := Flying(v.ds, c, conn.user).value;
      if !e.kind.Broadcast? && conn.sub.Some? { PassBy(v.log, v.f, conn.sub.value, e); }
      forall k | k in conn.runs ensures PhaseInv(v.log, v.f, None, conn, conn.runs[k]) {
        assert PhaseInv(v.log, v.f, Some(e), conn, conn.runs[k]);
        if !e.kind.Broadcast? && conn.sub.Some? && conn.runs[k].Flush? {
          PassByHold(v.log, v.f, conn.sub.value, e, conn.runs[k].shot);
        }
      }
    }
  }

  // The in-flight event is queued for or written to the subscription.
  lemma OfferedGood(v: View, v': View, c: ConnId, conn: Conn, e: Message)
    requires Good(v, c, conn) && Issued(v.log) && v' == v.(ds := v'.ds)
    requires Flying(v.ds, c, conn.user) == Some(e) && Flying(v'.ds, c, conn.user) == None
    requires conn.sub.Some? && (!conn.closed ==> DoomOk(v', c, conn))
    ensures Good(v', c, conn.(sub := Some(Offered(conn.sub.value, e))))
  {
    if !conn.closed {
      var sub := conn.sub.value;
      var conn' := conn.(sub := Some(Offered(sub, e)));
      OfferKeeps(v.log, v.f, sub, e);
      OfferedRuns(v.opOwner != "", conn.user == v.owner, conn, e);
      forall k | k in conn.runs ensures PhaseInv(v.log, v.f, None, conn', conn.runs[k]) {
        assert PhaseInv(v.log, v.f, Some(e), conn, conn.runs[k]);
        if conn.runs[k].Flush? { OfferKeepsHold(v.log, v.f, sub, e, conn.runs[k].shot); }
      }
    }
  }

  lemma OfferedRuns(ownerSet: bool, isOwner: bool, conn: Conn, e: Message)
    requires RunsInv(ownerSet, isOwner, conn) && conn.sub.Some?
    ensures RunsInv(ownerSet, isOwner, conn.(sub := Some(Offered(conn.sub.value, e))))
  {
  }

  // Init names the owner.
  lemma OwnedGood(v: View, v': View, c: ConnId, conn: Conn)
    requires Good(v, c, conn) && v.opOwner == "" && v.owner != ""
    requires v' == v.(opOwner := v.owner, pass0 := Some(Announce))
    ensures Good(v', c, conn)
  {
  }

  // ------------------------------------------------------------------ the operation

  lemma {:induction false} IdsOfRun(log: seq<Message>, a: nat, b: nat)
    requires Issued(log) && a <= b <= |log|
    ensures forall id :: Ids(log[a..b])[id] == if a < id <= b then 1 else 0
    decreases b
  {
    if a < b {
      IdsOfRun(log, a, b - 1);
      assert log[a..b][..b - 1 - a] == log[a..b - 1];
    }
  }

  lemma IdsOfQueue(op: Op)
    requires Wf(op)
    ensures forall id :: Ids(op.queue)[id] == if FrontOf(op) < id <= |op.log| then 1 else 0
  {
    IdsOfRun(op.log, FrontOf(op), |op.log|);
    assert op.log[FrontOf(op)..|op.log|] == op.queue;
  }

  function AfterIssue(op: Op, op': Op, ds: seq<Drainer>): seq<Drainer> {
    if op'.dispatch && !op.dispatch then ds + [Loop] else ds
  }

  lemma PublishOp(op: Op, ds: seq<Drainer>, kind: Kind, body: string)
    requires OpInv(op, ds)
    ensures OpInv(Publish(op, kind, body), AfterIssue(op, Publish(op, kind, body), ds))
  {
    PublishWf(op, kind, body);
    IdsOfQueue(op);
  }

  // Status, owner and open calls do not matter to delivery.
  lemma SameDelivery(op: Op, op': Op, ds: seq<Drainer>)
    requires OpInv(op, ds) && Wf(op')
    requires op'.log == op.log && op'.queue == op.queue && op'.sent == op.sent
    requires op'.dispatch == op.dispatch && op'.overflow == op.overflow
    ensures OpInv(op', ds)
  {
  }

  lemma ExecuteOp(op: Op, ds: seq<Drainer>, k: string, preferred: string, expiresAt: int, body: string)
    requires OpInv(op, ds)
    ensures OpInv(Executed(op, k, preferred, expiresAt, body), AfterIssue(op, Executed(op, k, preferred, expiresAt, body), ds))
  {
    hide SentInv, Window, Buffered, QueueWf, Issued, OpenWf, Ids;
    var op' := Executed(op, k, preferred, expiresAt, body);
    if !IsTerminal(op.status) {
      var mid := Publish(Closed(op, k), LlmExecute(k, preferred), body);
      ApplyWf(op, Close(k));
      assert op' == mid.(open := op'.open);
      SameDelivery(op, Closed(op, k), ds);
      PublishOp(Closed(op, k), ds, LlmExecute(k, preferred), body);
      ApplyWf(op, Execute(k, preferred, expiresAt, body));
      OtherOpen(mid, op'.open, AfterIssue(op, mid, ds));
    }
  }

  lemma OtherOpen(op: Op, open: map<string, OpenCall>, ds: seq<Drainer>)
    requires OpInv(op, ds) && Wf(op.(open := open))
    ensures OpInv(op.(open := open), ds)
  {
  }

  lemma EndedOp(op: Op, ds: seq<Drainer>, status: Status, body: string)
    requires OpInv(op, ds)
    ensures OpInv(Ended(op, status, body), AfterIssue(op, Ended(op, status, body), ds))
  {
    SameDelivery(op, op.(status := status), ds);
    PublishOp(op.(status := status), ds, Broadcast, body);
  }

  lemma CancelOp(op: Op, ds: seq<Drainer>, k: string, body: string)
    requires OpInv(op, ds)
    ensures OpInv(Cancelled(op, k, body), AfterIssue(op, Cancelled(op, k, body), ds))
  {
    SameDelivery(op, Closed(op, k), ds);
    PublishOp(Closed(op, k), ds, Broadcast, body);
  }

  lemma IssueOp(op: Op, ds: seq<Drainer>, cmd: Command)
    requires OpInv(op, ds) && IssueAllowed(cmd)
    ensures OpInv(Apply(op, cmd), AfterIssue(op, Apply(op, cmd), ds))
  {
    match cmd
    case Push(kind, body) => PublishOp(op, ds, kind, body);
    case Ask(body) => PublishOp(op, ds, Broadcast, body);
    case End(status, body) => EndedOp(op, ds, status, body);
    case Update(status, body) => EndedOp(op, ds, status, body);
    case Execute(k, preferred, expiresAt, body) => ExecuteOp(op, ds, k, preferred, expiresAt, body);
    case Cancel(k, body) => CancelOp(op, ds, k, body);
    case Close(k) => SameDelivery(op, Closed(op, k), ds);
    case Prune(now) => SameDelivery(op, Pruned(op, now), ds);
  }

  // What a command means for delivery: nothing is issued, one event is queued, or the full queue is discarded first.
  lemma IssueKinds(op: Op, cmd: Command)
    requires IssueAllowed(cmd)
    ensures var op' := Apply(op, cmd);
      && op'.owner == op.owner
      && (op'.log == op.log ==> op'.queue == op.queue && op'.overflow == op.overflow && op'.dispatch == op.dispatch)
      && (op'.log != op.log ==> |op'.log| == |op.log| + 1 && op'.log == op.log + [op'.log[|op.log|]])
      && (op'.log != op.log && !Discards(op, cmd) ==> |op'.queue| == |op.queue| + 1 && op'.overflow == op.overflow)
      && (Discards(op, cmd) ==> |op'.queue| == 1 && op'.overflow && op'.log != op.log)
  {
  }

  lemma ClearOp(op: Op)
    requires OpInv(op, [Loop])
    ensures OpInv(ClearOverflow(op), [Scan])
  {
    IdsOfQueue(op);
  }

  lemma StopOp(op: Op)
    requires OpInv(op, [Loop]) && op.queue == [] && !op.overflow
    ensures OpInv(StopDraining(op), [])
  {
  }

  lemma PopOp(op: Op)
    requires OpInv(op, [Loop]) && op.queue != []
    ensures op.queue[0] == op.log[FrontOf(op)]
    ensures OpInv(Pop(op), [ReadOwner(op.queue[0])])
  {
  }

  lemma ReportOp(op: Op, e: Message)
    requires OpInv(op, [Report(e)])
    ensures OpInv(op.(sent := op.sent + multiset{e.id}), [Loop])
  {
  }

  // ------------------------------------------------------------------ whole steps

  // A step that changes one connection and nothing its neighbours see.
  lemma OneConn(s: State, s': State, c: ConnId, conn: Conn)
    requires Inv(s) && Base(s') && s'.conns == s.conns[c := conn] && ViewOf(s') == ViewOf(s)
    requires Good(ViewOf(s), c, conn)
    ensures Inv(s')
  {
  }

  // A step that leaves the connections alone.
  lemma NoConn(s: State, s': State)
    requires Inv(s) && Base(s') && s'.conns == s.conns && ViewOf(s') == ViewOf(s)
    ensures Inv(s')
  {
  }

  lemma CloseInInv(s: State, c: ConnId)
    requires Inv(s)
    ensures Inv(CloseIn(s, c))
  {
    if c in s.conns {
      ClosedGood(ViewOf(s), c, s.conns[c]);
      OneConn(s, CloseIn(s, c), c, CloseConn(s.conns[c]));
    }
  }

  lemma FlyingSound(s: State, c: ConnId, user: string)
    requires Base(s)
    ensures FlyingOk(s.op.log, FrontOf(s.op), Flying(s.drainers, c, user))
  {
  }

  lemma CompleteGood(v: View, c: ConnId, conn: Conn, k: nat, op: Op, keep: set<int>, fail: Option<nat>)
    requires Good(v, c, conn) && k in conn.runs
    requires conn.runs[k].Flush? && conn.sub.Some? ==> FailPossible(conn.sub.value, conn.runs[k].shot, keep, fail)
    requires Wf(op) && op.log == v.log && FrontOf(op) == v.f && op.owner == v.opOwner && (op.owner == "" || op.owner == v.owner)
    ensures Good(v, c, CompleteConn(op, conn, k, keep, fail))
  {
    match conn.runs[k]
    case Start => StartGood(v, c, conn, k, op);
    case Park => ParkGood(v, c, conn, k, op);
    case Recheck => RecheckGood(v, c, conn, k, op);
    case Unpark => UnparkGood(v, c, conn, k, op);
    case Forbidden => ForbiddenGood(v, c, conn, k, op);
    case ReadSince => ReadSinceGood(v, c, conn, k, op);
    case Collect(_, _) => CollectGood(v, c, conn, k, op);
    case Flush(_) => FlushGood(v, c, conn, k, op, keep, fail);
    case Tell => TellGood(v, c, conn, k, op, fail);
    case Hangup => HangupGood(v, c, conn, k, op);
  }

  lemma CompleteInv(s: State, c: ConnId, k: nat, now: int, keep: set<int>, fail: Option<nat>)
    requires Inv(s) && Enabled(s, Complete(c, k, now, keep, fail))
    ensures Inv(CompleteStep(s, c, k, now, keep, fail))
  {
    hide Good, CompleteConn;
    var op := if s.conns[c].runs[k].Collect? then Pruned(s.op, now) else s.op;
    ApplyWf(s.op, Prune(now));
    if s.conns[c].runs[k].Collect? { SameDelivery(s.op, op, s.drainers); }
    CompleteGood(ViewOf(s), c, s.conns[c], k, op, keep, fail);
    OneConn(s, CompleteStep(s, c, k, now, keep, fail), c, CompleteConn(op, s.conns[c], k, keep, fail));
  }

  lemma IssueInv(s: State, cmd: Command)
    requires Inv(s) && IssueAllowed(cmd)
    ensures Inv(IssueStep(s, cmd))
  {
    var s' := IssueStep(s, cmd);
    IssueOp(s.op, s.drainers, cmd);
    IssueKinds(s.op, cmd);
    assert Base(s');
    forall c | c in s'.conns ensures Good(ViewOf(s'), c, s'.conns[c]) {
      assert Good(ViewOf(s), c, s.conns[c]);
      IssueGood(s, s', cmd, c);
    }
  }

  lemma IssueGood(s: State, s': State, cmd: Command, c: ConnId)
    requires Base(s) && Base(s') && IssueAllowed(cmd) && s' == IssueStep(s, cmd)
    requires c in s.conns && Good(ViewOf(s), c, s.conns[c])
    ensures Good(ViewOf(s'), c, s'.conns[c])
  {
    hide SubsInv, RunsInv, Apply;
    IssueKinds(s.op, cmd);
    var m := if s'.op.log != s.op.log then s'.op.log[|s.op.log|] else Message(0, Broadcast, "");
    if s'.op.log == s.op.log {
      Unaffected(ViewOf(s), ViewOf(s'), c, s.conns[c]);
    } else if Discards(s.op, cmd) {
      DoomedGood(ViewOf(s), ViewOf(s').(log := s.op.log), c, s.conns[c]);
      Grown(ViewOf(s').(log := s.op.log), ViewOf(s'), c, DoomConn(s.conns[c], FrontOf(s.op)), m);
    } else {
      Grown(ViewOf(s), ViewOf(s'), c, s.conns[c], m);
    }
  }

  lemma BegunOp(op: Op, owner: string, ds: seq<Drainer>)
    requires OpInv(op, ds)
    ensures OpInv(Begun(op, owner), ds)
  {
    ApplyWf(op, Init(owner));
    SameDelivery(op, Begun(op, owner), ds);
  }

  lemma InitInv(s: State, p: nat)
    requires Inv(s) && Enabled(s, Initialise(p))
    ensures Inv(Step(s, Initialise(p)))
  {
    hide OpInv, Good;
    var s' := Step(s, Initialise(p));
    BegunOp(s.op, s.owner, s.drainers);
    forall c | c in s'.conns ensures Good(ViewOf(s'), c, s'.conns[c]) {
      assert Good(ViewOf(s), c, s.conns[c]);
      if s.op.owner == "" {
        OwnedGood(ViewOf(s), ViewOf(s'), c, s.conns[c]);
      }
    }
  }

  lemma VisitInv(s: State, p: nat, c: ConnId, k: nat, ok: bool)
    requires Inv(s) && VisitEnabled(s, p, c, k)
    ensures Inv(VisitStep(s, p, c, k, ok))
  {
    match s.passes[p]
    case Announce => PassMoves(s, VisitStep(s, p, c, k, ok), p);
    case Listing(owner) => PassMoves(s, VisitStep(s, p, c, k, ok), p);
    case Visiting(todo) =>
      if todo != {} && !ok {
        CloseInInv(s, c);
        PassMoves(CloseIn(s, c), VisitStep(s, p, c, k, ok), p);
      } else {
        PassMoves(s, VisitStep(s, p, c, k, ok), p);
      }
    case Waking(todo, x) => WakingInv(s, p, c, k, ok);
    case Finished =>
  }

  ghost predicate StillParked(s: State, c: ConnId)
    requires c in s.conns
  {
    s.conns[c].user == s.owner && InState(s.conns[c], Pending)
  }

  // A pass moves on without leaving behind a parked subscription of the owner that only it would wake.
  lemma PassMoves(s: State, s': State, p: nat)
    requires Inv(s) && p in s.passes && s' == s.(passes := s'.passes) && p in s'.passes
    requires s'.passes == s.passes[p := s'.passes[p]]
    requires p == 0 && s'.passes[0].Listing? ==> s'.passes[0].owner == s.owner
    requires s.op.owner == "" ==> s'.passes[p].Announce? || s'.passes[p].Finished?
    requires p == 0 ==> forall c :: c in s.conns && !s.conns[c].closed && StillParked(s, c) && PassCovers(s.passes[0], c) ==>
                                      PassCovers(s'.passes[0], c)
    ensures Inv(s')
  {
    forall c | c in s'.conns ensures Good(ViewOf(s'), c, s'.conns[c]) {
      assert Good(ViewOf(s), c, s.conns[c]);
      Unaffected(ViewOf(s), ViewOf(s'), c, s.conns[c]);
    }
  }

  lemma WakingInv(s: State, p: nat, c: ConnId, k: nat, ok: bool)
    requires Inv(s) && VisitEnabled(s, p, c, k) && s.passes[p].Waking?
    ensures Inv(VisitStep(s, p, c, k, ok))
  {
    var mid := if c in s.conns then WithConn(s, c, WakeConn(s.conns[c], k)) else s;
    if c in s.conns {
      assert Good(ViewOf(s), c, s.conns[c]);
      WakeGood(ViewOf(s), c, s.conns[c], k);
      OneConn(s, mid, c, WakeConn(s.conns[c], k));
    }
    PassMoves(mid, VisitStep(s, p, c, k, ok), p);
  }

  // ------------------------------------------------------------------ the drainer

  lemma OnlyDrainer(s: State, d: nat, c: ConnId, ok: bool)
    requires Base(s) && DrainEnabled(s, d, c, ok)
    ensures d == 0 && s.drainers == [s.drainers[0]]
    ensures forall x :: Moved(s, d, x).drainers == [x]
    ensures Removed(s.drainers, d) == []
  {
  }

  lemma OverflowLoop(s: State)
    requires Inv(s) && s.drainers == [Loop] && s.op.overflow
    ensures Inv(LoopTop(s, 0))
  {
    var s' := LoopTop(s, 0);
    ClearOp(s.op);
    hide OpInv;
    forall c | c in s'.conns ensures Good(ViewOf(s'), c, s'.conns[c]) {
      assert Good(ViewOf(s), c, s.conns[c]);
      DoomedGood(ViewOf(s), ViewOf(s'), c, s.conns[c]);
    }
  }

  lemma StoppedLoop(s: State)
    requires Inv(s) && s.drainers == [Loop] && !s.op.overflow && s.op.queue == []
    ensures Inv(LoopTop(s, 0))
  {
    var s' := LoopTop(s, 0);
    StopOp(s.op);
    hide OpInv;
    forall c | c in s'.conns ensures Good(ViewOf(s'), c, s'.conns[c]) {
      assert Good(ViewOf(s), c, s.conns[c]);
      Unaffected(ViewOf(s), ViewOf(s'), c, s.conns[c]);
    }
  }

  lemma PoppingLoop(s: State)
    requires Inv(s) && s.drainers == [Loop] && !s.op.overflow && s.op.queue != []
    ensures Inv(LoopTop(s, 0))
  {
    var s' := LoopTop(s, 0);
    PopOp(s.op);
    hide OpInv;
    forall c | c in s'.conns ensures Good(ViewOf(s'), c, s'.conns[c]) {
      assert Good(ViewOf(s), c, s.conns[c]);
      PoppedGood(ViewOf(s), ViewOf(s'), c, s.conns[c]);
    }
  }

  lemma LoopInv(s: State)
    requires Inv(s) && s.drainers == [Loop]
    ensures Inv(LoopTop(s, 0))
  {
    hide Inv;
    if s.op.overflow {
      OverflowLoop(s);
    } else if s.op.queue == [] {
      StoppedLoop(s);
    } else {
      PoppingLoop(s);
    }
  }

  // The drainer changes phase; every connection either sees the same event in flight or may be passed by.
  lemma PhaseMoves(s: State, s': State, x: Drainer)
    requires Inv(s) && |s.drainers| == 1 && s' == s.(drainers := [x], routing := s'.routing) && InFlight(x) == InFlight(s.drainers[0]) && ChoiceOk(x)
    requires forall c :: c in s.conns && !s.conns[c].closed && s.conns[c].sub.Some? && ClosingCovers(s.drainers, c) ==> ClosingCovers([x], c)
    requires forall c :: c in s.conns && !s.conns[c].closed ==>
      FlyingOf(x, c, s.conns[c].user) == Flying(s.drainers, c, s.conns[c].user) ||
      (FlyingOf(x, c, s.conns[c].user) == None && MayPass(s.drainers, c, s.conns[c]))
    ensures Inv(s')
  {
    assert OpInv(s'.op, s'.drainers);
    forall c | c in s'.conns ensures Good(ViewOf(s'), c, s'.conns[c]) {
      assert Good(ViewOf(s), c, s.conns[c]);
      if !s.conns[c].closed {
        if FlyingOf(x, c, s.conns[c].user) == Flying(s.drainers, c, s.conns[c].user) {
          Unaffected(ViewOf(s), ViewOf(s'), c, s.conns[c]);
        } else {
          PassedBy(ViewOf(s), ViewOf(s'), c, s.conns[c]);
        }
      }
    }
  }

  ghost predicate MayPass(ds: seq<Drainer>, c: ConnId, conn: Conn) {
    Flying(ds, c, conn.user).Some? ==>
      || !Flying(ds, c, conn.user).value.kind.Broadcast?
      || conn.sub.None?
      || (!InState(conn, Live) && forall k :: k in conn.runs ==> !Resuming(conn.runs[k]))
  }

  lemma ClosingInv(s: State, c: ConnId, ok: bool)
    requires Inv(s) && DrainEnabled(s, 0, c, ok) && (s.drainers[0].Closing? || s.drainers[0].Scan?)
    ensures Inv(DrainStep(s, 0, c, ok))
  {
    var s' := DrainStep(s, 0, c, ok);
    OnlyDrainer(s, 0, c, ok);
    assert forall x :: x in s.conns ==> Good(ViewOf(s), x, s.conns[x]);
    PhaseMoves(s, s', s'.drainers[0]);
  }

  lemma ClosingOneInv(s: State, todo: set<ConnId>, x: ConnId)
    requires Inv(s) && s.drainers == [ClosingOne(todo, x)]
    ensures Inv(DrainStep(s, 0, x, true))
  {
    var mid := CloseIn(s, x);
    CloseInInv(s, x);
    assert x in mid.conns ==> mid.conns[x].closed;
    var s' := DrainStep(s, 0, x, true);
    OnlyDrainer(s, 0, x, true);
    PhaseMoves(mid, s', Closing(todo));
  }

  // An event read before init names nobody: then no subscription holds a snapshot or is live.
  lemma OwnerReadInv(s: State, e: Message)
    requires Inv(s) && s.drainers == [ReadOwner(e)]
    ensures Inv(DrainStep(s, 0, 0, true))
  {
    var s' := DrainStep(s, 0, 0, true);
    OnlyDrainer(s, 0, 0, true);
    forall c | c in s.conns && !s.conns[c].closed && s.conns[c].user != s.op.owner ensures MayPass(s.drainers, c, s.conns[c]) {
      assert Good(ViewOf(s), c, s.conns[c]);
    }
    PhaseMoves(s, s', List(e, s.op.owner));
  }

  lemma ListInv(s: State, e: Message, owner: string)
    requires Inv(s) && s.drainers == [List(e, owner)]
    ensures Inv(DrainStep(s, 0, 0, true))
  {
    var s' := DrainStep(s, 0, 0, true);
    OnlyDrainer(s, 0, 0, true);
    assert forall c :: c in s.conns ==> Good(ViewOf(s), c, s.conns[c]);
    PhaseMoves(s, s', Observe(e, RegisteredOf(s, owner), {}, {}, {}));
  }

  lemma ObserveInv(s: State, c: ConnId, ok: bool)
    requires Inv(s) && DrainEnabled(s, 0, c, ok) && s.drainers[0].Observe?
    ensures Inv(DrainStep(s, 0, c, ok))
  {
    var s' := DrainStep(s, 0, c, ok);
    OnlyDrainer(s, 0, c, ok);
    PhaseMoves(s, s', s'.drainers[0]);
  }

  lemma FailedInv(s: State, e: Message, todo: set<ConnId>, x: ConnId)
    requires Inv(s) && s.drainers == [Failed(e, todo, x)]
    ensures Inv(DrainStep(s, 0, x, true))
  {
    var mid := CloseIn(s, x);
    CloseInInv(s, x);
    assert x in mid.conns ==> mid.conns[x].closed;
    var s' := DrainStep(s, 0, x, true);
    OnlyDrainer(s, 0, x, true);
    PhaseMoves(mid, s', Deliver(e, todo));
  }

  lemma DeliverInv(s: State, e: Message, todo: set<ConnId>, c: ConnId, ok: bool)
    requires Inv(s) && s.drainers == [Deliver(e, todo)] && DrainEnabled(s, 0, c, ok)
    ensures Inv(DrainStep(s, 0, c, ok))
  {
    hide Offered, SentInv, SubsInv, RunsInv, WakeOk;
    var s' := DrainStep(s, 0, c, ok);
    OnlyDrainer(s, 0, c, ok);
    if todo == {} || !Subscribed(s, c) || s'.drainers[0].Failed? {
      PhaseMoves(s, s', s'.drainers[0]);
    } else {
      OfferInv(s, s', e, todo, c);
    }
  }

  lemma OfferInv(s: State, s': State, e: Message, todo: set<ConnId>, c: ConnId)
    requires Inv(s) && s.drainers == [Deliver(e, todo)] && c in todo && Subscribed(s, c)
    requires s' == s.(routing := s'.routing, drainers := [Deliver(e, todo - {c})], conns := s.conns[c := s.conns[c].(sub := Some(Offered(s.conns[c].sub.value, e)))])
    ensures Inv(s')
  {
    forall x | x in s'.conns ensures Good(ViewOf(s'), x, s'.conns[x]) {
      assert Good(ViewOf(s), x, s.conns[x]);
      if x == c {
        OfferedGood(ViewOf(s), ViewOf(s'), c, s.conns[c], e);
      } else {
        Unaffected(ViewOf(s), ViewOf(s'), x, s.conns[x]);
      }
    }
  }

  lemma ReportInv(s: State, e: Message)
    requires Inv(s) && s.drainers == [Report(e)]
    ensures Inv(DrainStep(s, 0, 0, true))
  {
    var s' := DrainStep(s, 0, 0, true);
    OnlyDrainer(s, 0, 0, true);
    ReportOp(s.op, e);
    forall c | c in s'.conns ensures Good(ViewOf(s'), c, s'.conns[c]) {
      assert Good(ViewOf(s), c, s.conns[c]);
      Unaffected(ViewOf(s), ViewOf(s'), c, s.conns[c]);
    }
  }

  lemma DrainInv(s: State, d: nat, c: ConnId, ok: bool)
    requires Inv(s) && DrainEnabled(s, d, c, ok)
    ensures Inv(DrainStep(s, d, c, ok))
  {
    OnlyDrainer(s, d, c, ok);
    match s.drainers[0]
    case Loop => LoopInv(s);
    case Scan => ClosingInv(s, c, ok);
    case Closing(_) => ClosingInv(s, c, ok);
    case ClosingOne(todo, x) => ClosingOneInv(s, todo, x);
    case ReadOwner(e) => OwnerReadInv(s, e);
    case List(e, owner) => ListInv(s, e, owner);
    case Observe(_, _, _, _, _) => ObserveInv(s, c, ok);
    case Deliver(e, todo) => DeliverInv(s, e, todo, c, ok);
    case Failed(e, todo, x) => FailedInv(s, e, todo, x);
    case Report(e) => ReportInv(s, e);
  }

  // ------------------------------------------------------------------ every step

  lemma StepInv(s: State, l: Label)
    requires Inv(s) && Enabled(s, l)
    ensures Inv(Step(s, l))
  {
    match l
    case Connect(c, user, clientId) =>
      ConnectGood(ViewOf(s), c, user, clientId);
      OneConn(s, Step(s, l), c, Conn(user, clientId, true, false, None, map[], 0));
    case Subscribe(c, since, executor) =>
      FlyingSound(s, c, s.conns[c].user);
      SubscribeGood(ViewOf(s), c, s.conns[c], since, executor);
      OneConn(s, Step(s, l), c, SubscribeConn(s.conns[c], since, executor));
    case Drop(c) =>
      DropGood(ViewOf(s), c, s.conns[c]);
      OneConn(s, Step(s, l), c, s.conns[c].(sub := None));
    case Hang(c) => CloseInInv(s, c);
    case Deregister(c) => OneConn(s, Step(s, l), c, s.conns[c].(registered := false));
    case Complete(c, k, now, keep, fail) => CompleteInv(s, c, k, now, keep, fail);
    case Issue(cmd) => IssueInv(s, cmd);
    case Initialise(p) => InitInv(s, p);
    case Notify(p) => NoConn(s, Step(s, l));
    case Visit(p, c, k, ok) => VisitInv(s, p, c, k, ok);
    case Drain(d, c, ok) => DrainInv(s, d, c, ok);
  }

  // The invariant holds in every reachable state.
  lemma {:induction false} Reachable(run: seq<State>, i: nat)
    requires IsRun(run) && i < |run|
    ensures Inv(run[i])
  {
    if i == 0 {
      InitialInv(run[0]);
    } else {
      Reachable(run, i - 1);
      assert StepAt(run, i - 1);
      var l :| Enabled(run[i - 1], l) && run[i] == Step(run[i - 1], l);
      StepInv(run[i - 1], l);
    }
  }
}
