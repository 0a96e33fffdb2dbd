/** What every step of the delivery protocol keeps. */
module DeliveryInvariant {
  import opened Wrappers
  import opened EventLog
  import opened Subscription
  import opened Delivery

  // ------------------------------------------------------------------ the event in flight

  function InFlight(d: Drainer): Option<Message> {
    match d
    case ReadOwner(e) => Some(e)
    case List(e, _) => Some(e)
    case Observe(e, _, _, _, _) => Some(e)
    case Deliver(e, _) => Some(e)
    case Failed(e, _, _) => Some(e)
    case Report(e) => Some(e)
    case _ => None
  }

  function InFlightId(ds: seq<Drainer>): int {
    if ds != [] && InFlight(ds[0]).Some? then InFlight(ds[0]).value.id else 0
  }

  // The in-flight event, as long as connection c is still to be served with it.
  function FlyingOf(d: Drainer, c: ConnId, user: string): Option<Message> {
    match d
    case ReadOwner(e) => Some(e)
    case List(e, owner) => if owner == user then Some(e) else None
    case Observe(e, todo, all, _, _) => if c in todo || c in all then Some(e) else None
    case Deliver(e, todo) => if c in todo then Some(e) else None
    case Failed(e, todo, x) => if c in todo || c == x then Some(e) else None
    case _ => None
  }

  function Flying(ds: seq<Drainer>, c: ConnId, user: string): Option<Message> {
    if ds == [] then None else FlyingOf(ds[0], c, user)
  }

  // ------------------------------------------------------------------ one connection

  // What a connection's invariant depends on outside the connection.
  datatype View = View(owner: string, opOwner: string, log: seq<Message>, f: int, overflow: bool, ds: seq<Drainer>, pass0: Option<Pass>)

  function ViewOf(s: State): View {
    View(s.owner, s.op.owner, s.op.log, FrontOf(s.op), s.op.overflow, s.drainers,
         if 0 in s.passes then Some(s.passes[0]) else None)
  }

  // A completion that will move a replaying subscription of generation gen on, or close its connection.
  predicate Driving(phase: Phase, gen: nat) {
    match phase
    case Start => true
    case Park => true
    case Forbidden => true
    case ReadSince => true
    case Collect(g, _) => g == gen
    case Flush(shot) => shot.gen == gen
    case Hangup => true
    case _ => false
  }

  predicate Resuming(phase: Phase) {
    phase.ReadSince? || phase.Collect? || phase.Flush?
  }

  predicate Parking(phase: Phase) {
    phase.Park? || phase.Recheck? || phase.Unpark?
  }

  ghost predicate InState(conn: Conn, state: SubState) {
    conn.sub.Some? && conn.sub.value.state == state
  }

  ghost predicate RunsInv(ownerSet: bool, isOwner: bool, conn: Conn) {
    && (!ownerSet ==>
          && conn.runs.Keys <= {0} && !InState(conn, Live)
          && (0 in conn.runs ==> conn.runs[0] in {Start, Park, Recheck, Tell, Hangup})
          && (0 in conn.runs && conn.runs[0] in {Start, Park} ==> !InState(conn, Pending)))
    && (forall k :: k in conn.runs && k != 0 ==> !Parking(conn.runs[k]))
    && (0 in conn.runs && conn.runs[0].Park? ==> conn.runs.Keys == {0} && !InState(conn, Pending) && !InState(conn, Live))
    && (InState(conn, Pending) ==>
          conn.runs.Keys <= {0} && (0 in conn.runs ==> conn.runs[0] in {Recheck, Unpark, Tell, Hangup}))
    && (!isOwner ==> !InState(conn, Live) && forall k :: k in conn.runs ==> !Resuming(conn.runs[k]))
    && (InState(conn, Replaying) ==> exists k :: k in conn.runs && Driving(conn.runs[k], conn.sub.value.gen))
  }

  ghost predicate PhaseInv(log: seq<Message>, f: int, flying: Option<Message>, conn: Conn, phase: Phase) {
    match phase
    case Collect(gen, since) => gen < conn.nextGen &&
      (conn.sub.Some? && gen == conn.sub.value.gen && !conn.sub.value.foreign ==> since <= conn.sub.value.lastSeq)
    case Flush(shot) => shot.gen < conn.nextGen && SnapshotOk(log, shot) &&
      (conn.sub.Some? ==> HoldInv(log, f, flying, conn.sub.value, shot))
    case _ => true
  }

  ghost predicate SubsInv(log: seq<Message>, f: int, flying: Option<Message>, conn: Conn) {
    && (conn.sub.Some? ==> conn.sub.value.gen < conn.nextGen && SubInv(log, f, flying, conn.sub.value))
    && (forall k :: k in conn.runs ==> PhaseInv(log, f, flying, conn, conn.runs[k]))
  }

  predicate ClosingCovers(ds: seq<Drainer>, c: ConnId) {
    ds != [] &&
    match ds[0]
    case Scan => true
    case Closing(todo) => c in todo
    case ClosingOne(todo, x) => c in todo || c == x
    case _ => false
  }

  // A subscription that lost queued events is going to be closed before the drainer takes another event, and the event
  // it may still be handing out is older than the lost ones.
  ghost predicate DoomOk(v: View, c: ConnId, conn: Conn) {
    conn.sub.Some? && conn.sub.value.doomed.Some? ==>
      && (v.overflow || ClosingCovers(v.ds, c))
      && InFlightId(v.ds) <= conn.sub.value.doomed.value <= v.f
  }

  predicate PassCovers(pass: Pass, c: ConnId) {
    match pass
    case Announce => true
    case Listing(_) => true
    case Visiting(todo) => c in todo
    case Waking(todo, x) => c in todo || c == x
    case Finished => false
  }

  // A parked subscription of the owner is about to be taken back by its own completion or by the first lifecycle pass.
  ghost predicate WakeOk(v: View, c: ConnId, conn: Conn) {
    v.opOwner != "" && conn.user == v.owner && InState(conn, Pending) ==>
      || (0 in conn.runs && (conn.runs[0].Recheck? || conn.runs[0].Unpark?))
      || (v.pass0.Some? && PassCovers(v.pass0.value, c))
  }

  ghost predicate Good(v: View, c: ConnId, conn: Conn) {
    !conn.closed ==>
      && conn.registered
      && RunsInv(v.opOwner != "", conn.user == v.owner, conn)
      && SubsInv(v.log, v.f, Flying(v.ds, c, conn.user), conn)
      && DoomOk(v, c, conn)
      && WakeOk(v, c, conn)
  }

  // ------------------------------------------------------------------ the operation

  // Each event's result channel has been sent to once if the event is neither queued nor in flight, else not at all.
  ghost predicate SentInv(op: Op, ds: seq<Drainer>) {
    forall id :: op.sent[id] == if 1 <= id <= FrontOf(op) && id != InFlightId(ds) then 1 else 0
  }

  // Executors and preferred connections are among the observed subscribers.
  predicate ChoiceOk(d: Drainer) {
    match d
    case Observe(_, _, all, executors, preferred) => executors <= all && preferred <= all
    case _ => true
  }

  ghost predicate OpInv(op: Op, ds: seq<Drainer>) {
    && Wf(op)
    && |ds| == (if op.dispatch then 1 else 0)
    && (ds == [] ==> op.queue == [] && !op.overflow)
    && (ds != [] && InFlight(ds[0]).Some? ==> IsIssued(op.log, InFlight(ds[0]).value) && InFlight(ds[0]).value.id <= FrontOf(op))
    && (ds != [] ==> ChoiceOk(ds[0]))
    && SentInv(op, ds)
  }

  ghost predicate Base(s: State) {
    && OpInv(s.op, s.drainers)
    && s.owner != "" && (s.op.owner == "" || s.op.owner == s.owner)
    && (0 in s.passes <==> s.op.owner != "")
    && (s.op.owner == "" ==> forall p :: p in s.passes ==> s.passes[p].Announce? || s.passes[p].Finished?)
    && (0 in s.passes && s.passes[0].Listing? ==> s.passes[0].owner == s.owner)
  }

  ghost predicate Inv(s: State) {
    Base(s) && forall c :: c in s.conns ==> Good(ViewOf(s), c, s.conns[c])
  }

  lemma InitialInv(s: State)
    requires Initial(s)
    ensures Inv(s)
  {
    NewOpInv();
  }

  lemma NewOpInv()
    ensures OpInv(NEW_OP, [])
  {
    assert Window([]) == [];
  }

  // ------------------------------------------------------------------ connection steps

  lemma ClosedGood(v: View, c: ConnId, conn: Conn)
    ensures Good(v, c, CloseConn(conn))
  {
  }

  lemma ConnectGood(v: View, c: ConnId, user: string, clientId: string)
    ensures Good(v, c, Conn(user, clientId, true, false, None, map[], 0))
  {
  }

  lemma SubscribeGood(v: View, c: ConnId, conn: Conn, since: int, executor: bool)
    requires Good(v, c, conn) && 0 !in conn.runs && 0 <= v.f <= |v.log|
    requires FlyingOk(v.log, v.f, Flying(v.ds, c, conn.user))
    ensures Good(v, c, SubscribeConn(conn, since, executor))
  {
    if !conn.closed {
      var conn' := SubscribeConn(conn, since, executor);
      FreshOk(v.log, v.f, Flying(v.ds, c, conn.user), executor, since, conn.nextGen);
      assert Driving(conn'.runs[0], conn.nextGen);
    }
  }

  lemma DropGood(v: View, c: ConnId, conn: Conn)
    requires Good(v, c, conn)
    ensures Good(v, c, conn.(sub := None))
  {
  }

  lemma WakeGood(v: View, c: ConnId, conn: Conn, k: nat)
    requires Good(v, c, conn) && k != 0 && k !in conn.runs && v.opOwner != ""
    ensures Good(v, c, WakeConn(conn, k))
  {
    hide RunsInv, SubsInv;
    if !conn.closed && InState(conn, Pending) {
      WakeRuns(conn.user == v.owner, conn, k);
      WakeSubs(v.log, v.f, Flying(v.ds, c, conn.user), conn, k);
    }
  }

  lemma WakeRuns(isOwner: bool, conn: Conn, k: nat)
    requires RunsInv(true, isOwner, conn) && k != 0 && k !in conn.runs && InState(conn, Pending)
    ensures RunsInv(true, isOwner, WakeConn(conn, k)) && forall j :: j in conn.runs ==> !Resuming(conn.runs[j])
  {
    var conn' := WakeConn(conn, k);
    assert Driving(conn'.runs[k], conn'.sub.value.gen);
  }

  lemma WakeSubs(log: seq<Message>, f: int, flying: Option<Message>, conn: Conn, k: nat)
    requires SubsInv(log, f, flying, conn) && k !in conn.runs && InState(conn, Pending)
    requires forall j :: j in conn.runs ==> !Resuming(conn.runs[j])
    ensures SubsInv(log, f, flying, WakeConn(conn, k))
  {
  }

  // ------------------------------------------------------------------ completion steps

  lemma StartGood(v: View, c: ConnId, conn: Conn, k: nat, op: Op)
    requires Good(v, c, conn) && k in conn.runs && conn.runs[k].Start?
    requires op.owner == v.opOwner && (op.owner == "" || op.owner == v.owner)
    ensures Good(v, c, CompleteConn(op, conn, k, {}, None))
  {
    var conn' := CompleteConn(op, conn, k, {}, None);
    if !conn.closed && InState(conn, Replaying) {
      assert Driving(conn'.runs[k], conn.sub.value.gen);
    }
  }

  lemma ParkGood(v: View, c: ConnId, conn: Conn, k: nat, op: Op)
    requires Good(v, c, conn) && k in conn.runs && conn.runs[k].Park?
    ensures Good(v, c, CompleteConn(op, conn, k, {}, None))
  {
    hide RunsInv, SubsInv;
    if !conn.closed {
      ParkRuns(v.opOwner != "", conn.user == v.owner, conn, k, op);
      ParkSubs(v.log, v.f, Flying(v.ds, c, conn.user), conn, k, op);
    }
  }

  lemma ParkRuns(ownerSet: bool, isOwner: bool, conn: Conn, k: nat, op: Op)
    requires RunsInv(ownerSet, isOwner, conn) && k in conn.runs && conn.runs[k].Park?
    ensures RunsInv(ownerSet, isOwner, CompleteConn(op, conn, k, {}, None))
    ensures k == 0 && CompleteConn(op, conn, k, {}, None).runs == map[0 := Recheck]
  {
  }

  lemma ParkSubs(log: seq<Message>, f: int, flying: Option<Message>, conn: Conn, k: nat, op: Op)
    requires SubsInv(log, f, flying, conn) && k in conn.runs && conn.runs[k].Park?
    requires CompleteConn(op, conn, k, {}, None).runs == map[0 := Recheck]
    ensures SubsInv(log, f, flying, CompleteConn(op, conn, k, {}, None))
  {
  }

  lemma RecheckGood(v: View, c: ConnId, conn: Conn, k: nat, op: Op)
    requires Good(v, c, conn) && k in conn.runs && conn.runs[k].Recheck?
    requires op.owner == v.opOwner
    ensures Good(v, c, CompleteConn(op, conn, k, {}, None))
  {
    var conn' := CompleteConn(op, conn, k, {}, None);
    if !conn.closed && InState(conn, Replaying) {
      var j :| j in conn.runs && Driving(conn.runs[j], conn.sub.value.gen);
      assert j in conn'.runs && Driving(conn'.runs[j], conn.sub.value.gen);
    }
  }

  lemma WokenKeeps(log: seq<Message>, f: int, flying: Option<Message>, sub: Sub)
    requires SubInv(log, f, flying, sub)
    ensures SubInv(log, f, flying, Woken(sub))
  {
  }

  lemma UnparkGood(v: View, c: ConnId, conn: Conn, k: nat, op: Op)
    requires Good(v, c, conn) && k in conn.runs && conn.runs[k].Unpark?
    ensures Good(v, c, CompleteConn(op, conn, k, {}, None))
  {
    hide SubInv, SnapshotOk;
    var conn' := CompleteConn(op, conn, k, {}, None);
    if !conn.closed && conn.sub.Some? {
      WokenKeeps(v.log, v.f, Flying(v.ds, c, conn.user), conn.sub.value);
      assert Driving(conn'.runs[k], conn.sub.value.gen);
    }
  }

  lemma ForbiddenGood(v: View, c: ConnId, conn: Conn, k: nat, op: Op)
    requires Good(v, c, conn) && k in conn.runs && conn.runs[k].Forbidden?
    ensures Good(v, c, CompleteConn(op, conn, k, {}, None))
  {
  }

  lemma ReadSinceGood(v: View, c: ConnId, conn: Conn, k: nat, op: Op)
    requires Good(v, c, conn) && k in conn.runs && conn.runs[k].ReadSince?
    ensures Good(v, c, CompleteConn(op, conn, k, {}, None))
  {
    var conn' := CompleteConn(op, conn, k, {}, None);
    if !conn.closed && InState(conn, Replaying) {
      assert Driving(conn'.runs[k], conn.sub.value.gen);
    }
  }

  // A snapshot of a well-formed operation holds every event it has not reported as gone.
  lemma ShotOk(op: Op, gen: nat, since: int)
    requires Wf(op)
    ensures SnapshotOk(op.log, TakeShot(op, gen, since))
  {
    hide Replay, Gap, Window, Retained, Kept;
    LogFacts(op);
    GapExact(op, since);
    ReplayFacts(op.log, Trimmed(op), op.open, since);
    ShotHolds(op, since);
  }

  lemma LogFacts(op: Op)
    requires Wf(op)
    ensures 0 <= Trimmed(op) <= |op.log|
    ensures forall m :: m in op.log ==> IsIssued(op.log, m)
  {
    RetainedBounds(|op.log|);
  }

  lemma ShotHolds(op: Op, since: int)
    requires Wf(op)
    ensures Covered(op.log, Max(since, Trimmed(op)), |op.log|, Collected(op, since), None)
    ensures forall m :: m in Collected(op, since) ==> m in op.log && m.id > since
    ensures forall m :: m in Collected(op, since) && m.kind.Broadcast? ==> m.id > Trimmed(op)
  {
    hide Replay, Window, Retained;
    ReplayFacts(op.log, Trimmed(op), op.open, since);
    forall i | 0 <= i < |op.log| && Max(since, Trimmed(op)) < i + 1 && op.log[i].kind.Broadcast?
      ensures op.log[i] in Collected(op, since)
    {
      assert op.log[i] in op.log;
    }
  }

  lemma CollectGood(v: View, c: ConnId, conn: Conn, k: nat, op: Op)
    requires Good(v, c, conn) && k in conn.runs && conn.runs[k].Collect?
    requires Wf(op) && op.log == v.log && FrontOf(op) == v.f
    ensures Good(v, c, CompleteConn(op, conn, k, {}, None))
  {
    var conn' := CompleteConn(op, conn, k, {}, None);
    ShotOk(op, conn.runs[k].gen, conn.runs[k].since);
    if !conn.closed {
      if InState(conn, Replaying) {
        var j :| j in conn.runs && Driving(conn.runs[j], conn.sub.value.gen);
        assert j in conn'.runs && Driving(conn'.runs[j], conn.sub.value.gen);
      }
    }
  }

  lemma TellGood(v: View, c: ConnId, conn: Conn, k: nat, op: Op, fail: Option<nat>)
    requires Good(v, c, conn) && k in conn.runs && conn.runs[k].Tell?
    ensures Good(v, c, CompleteConn(op, conn, k, {}, fail))
  {
    var conn' := CompleteConn(op, conn, k, {}, fail);
    if !conn.closed && InState(conn, Replaying) {
      var j :| j in conn.runs && Driving(conn.runs[j], conn.sub.value.gen);
      assert j in conn'.runs && Driving(conn'.runs[j], conn.sub.value.gen);
    }
  }

  // The flush: coverage is kept for the subscription and for every other snapshot still held.
  lemma FlushSubs(log: seq<Message>, f: int, flying: Option<Message>, conn: Conn, k: nat, keep: set<int>, fail: Option<nat>)
    requires Issued(log) && SubsInv(log, f, flying, conn) && k in conn.runs && conn.runs[k].Flush?
    requires conn.sub.Some? && !InState(conn, Pending) && FailPossible(conn.sub.value, conn.runs[k].shot, keep, fail)
    ensures SubsInv(log, f, flying, FlushConn(conn, k, conn.runs[k].shot, keep, fail))
  {
    hide DeliveredAll, FlushList, Covered, WrittenOk, Increasing;
    var shot, sub := conn.runs[k].shot, conn.sub.value;
    var ms := FlushList(shot.replay, keep, sub.queue);
    assert PhaseInv(log, f, flying, conn, conn.runs[k]);
    var conn' := FlushConn(conn, k, shot, keep, fail);
    var j := if fail.Some? then fail.value else |ms|;
    assert ms[..|ms|] == ms;
    FlushShape(log, Front(f, sub), flying, sub, shot, keep, j);
    if fail.Some? {
      FlushFailedKeeps(log, f, flying, sub, shot, keep, j);
    } else {
      FlushKeeps(log, f, flying, sub, shot, keep);
    }
    forall i | i in conn'.runs && i != k ensures PhaseInv(log, f, flying, conn', conn'.runs[i]) {
      assert PhaseInv(log, f, flying, conn, conn.runs[i]);
    }
  }

  lemma FlushGood(v: View, c: ConnId, conn: Conn, k: nat, op: Op, keep: set<int>, fail: Option<nat>)
    requires Good(v, c, conn) && k in conn.runs && conn.runs[k].Flush? && Issued(v.log)
    requires conn.sub.Some? ==> FailPossible(conn.sub.value, conn.runs[k].shot, keep, fail)
    ensures Good(v, c, CompleteConn(op, conn, k, keep, fail))
  {
    if !conn.closed && conn.sub.Some? {
      FlushSubs(v.log, v.f, Flying(v.ds, c, conn.user), conn, k, keep, fail);
      FlushRuns(v.opOwner != "", conn.user == v.owner, conn, k, keep, fail);
      FlushRest(v, c, conn, k, keep, fail);
    }
  }

  lemma FlushRuns(ownerSet: bool, isOwner: bool, conn: Conn, k: nat, keep: set<int>, fail: Option<nat>)
    requires RunsInv(ownerSet, isOwner, conn) && k in conn.runs && conn.runs[k].Flush?
    requires conn.sub.Some? && FailPossible(conn.sub.value, conn.runs[k].shot, keep, fail)
    ensures RunsInv(ownerSet, isOwner, FlushConn(conn, k, conn.runs[k].shot, keep, fail))
  {
    hide FlushList, DeliveredAll, Range;
    var shot, sub := conn.runs[k].shot, conn.sub.value;
    var ms := FlushList(shot.replay, keep, sub.queue);
    var conn' := FlushConn(conn, k, shot, keep, fail);
    DeliveryShape(Marked(sub, shot.gen, shot.trimmed, shot.gap), if fail.Some? then ms[..fail.value] else ms);
    if InState(conn', Replaying) {
      assert Driving(conn'.runs[k], sub.gen);
    }
  }

  lemma FlushRest(v: View, c: ConnId, conn: Conn, k: nat, keep: set<int>, fail: Option<nat>)
    requires DoomOk(v, c, conn) && !InState(conn, Pending)
    requires k in conn.runs && conn.runs[k].Flush?
    requires conn.sub.Some? && FailPossible(conn.sub.value, conn.runs[k].shot, keep, fail)
    ensures DoomOk(v, c, FlushConn(conn, k, conn.runs[k].shot, keep, fail))
    ensures !InState(FlushConn(conn, k, conn.runs[k].shot, keep, fail), Pending)
  {
    var shot, sub := conn.runs[k].shot, conn.sub.value;
    var ms := FlushList(shot.replay, keep, sub.queue);
    DeliveryShape(Marked(sub, shot.gen, shot.trimmed, shot.gap), if fail.Some? then ms[..fail.value] else ms);
  }

  lemma HangupGood(v: View, c: ConnId, conn: Conn, k: nat, op: Op)
    requires Good(v, c, conn) && k in conn.runs && conn.runs[k].Hangup?
    ensures Good(v, c, CompleteConn(op, conn, k, {}, None))
  {
  }
}
