/**
 * The v2 delivery protocol of one operation (v2.go, operation.go) as a labelled transition system. A step is one
 * critical section under an operation, connection or connection-table lock, or one socket write made without a lock.
 * The owner that init sets is the same in the whole run; otherwise sections of any number of connections,
 * subscription completions, lifecycle passes and drainers interleave freely.
 */
module Delivery {
  import opened Wrappers
  import opened EventLog
  import opened Subscription

  type ConnId = nat

  // Where a completeSubscribe call stands, by its next section.
  datatype Phase =
    | Start                              // read the owner
    | Park                               // no owner yet: park the subscription
    | Recheck                            // read the owner again
    | Unpark                             // an owner after all: take the subscription back
    | Forbidden                          // another owner: drop the subscription
    | ReadSince                          // read the position to resume after
    | Collect(gen: nat, since: int)      // collectReplay
    | Flush(shot: Snapshot)              // write replay and queue
    | Tell                               // write resume_complete
    | Hangup                             // a write failed: close

  // Completion 0 is the one the connection's read loop is in; the others were started by lifecycle passes.
  datatype Conn = Conn(
    user: string,
    clientId: string,
    registered: bool,
    closed: bool,
    sub: Option<Sub>,
    runs: map<nat, Phase>,
    nextGen: nat)

  // Where a drainer goroutine stands.
  datatype Drainer =
    | Loop
    | Scan                                                   // overflow cleared: list the connections to check
    | Closing(todo: set<ConnId>)                             // check them one by one
    | ClosingOne(todo: set<ConnId>, c: ConnId)               // close the one found subscribed
    | ReadOwner(e: Message)                                  // operationTargets
    | List(e: Message, owner: string)
    | Observe(e: Message, todo: set<ConnId>, all: set<ConnId>, executors: set<ConnId>, preferred: set<ConnId>)
    | Deliver(e: Message, todo: set<ConnId>)                 // deliverOperationEvent
    | Failed(e: Message, todo: set<ConnId>, c: ConnId)       // the write to c failed: close c
    | Report(e: Message)                                     // answer on the event's result channel

  // A notifyLifecycle(running) call.
  datatype Pass =
    | Announce
    | Listing(owner: string)
    | Visiting(todo: set<ConnId>)
    | Waking(todo: set<ConnId>, c: ConnId)
    | Finished

  // What the drainer found of a connection when it looked at it.
  datatype Seen = Seen(executor: bool, clientId: string)

  // History of the event that is being delivered: the connections looked at, what was found of those subscribed, and those
  // that the event was then taken to.
  datatype Routing = Routing(visited: set<ConnId>, seen: map<ConnId, Seen>, handled: set<ConnId>)

  const NO_ROUTING: Routing := Routing({}, map[], {})

  datatype State = State(
    owner: string,                       // the user init names
    op: Op,
    drainers: seq<Drainer>,
    conns: map<ConnId, Conn>,
    passes: map<nat, Pass>,              // pass 0 belongs to the init that sets the owner
    routing: Routing)

  datatype Label =
    | Connect(c: ConnId, user: string, clientId: string)
    | Subscribe(c: ConnId, since: int, executor: bool)
    | Drop(c: ConnId)                                                  // unsubscribe and dropSubscription
    | Hang(c: ConnId)                                                  // close after a timeout, read error or failed write
    | Deregister(c: ConnId)
    | Complete(c: ConnId, k: nat, now: int, keep: set<int>, fail: Option<nat>)
    | Issue(cmd: Command)
    | Initialise(p: nat)
    | Notify(p: nat)
    | Visit(p: nat, c: ConnId, k: nat, ok: bool)
    | Drain(d: nat, c: ConnId, ok: bool)

  ghost predicate Initial(s: State) {
    s.owner != "" && s == State(s.owner, NEW_OP, [], map[], map[], NO_ROUTING)
  }

  // ------------------------------------------------------------------ helpers

  function CloseConn(conn: Conn): Conn {
    if conn.closed then conn else conn.(closed := true, sub := None)
  }

  function WithConn(s: State, c: ConnId, conn: Conn): State {
    s.(conns := s.conns[c := conn])
  }

  function CloseIn(s: State, c: ConnId): State {
    if c in s.conns then WithConn(s, c, CloseConn(s.conns[c])) else s
  }

  function DoomConn(conn: Conn, front: int): Conn {
    if conn.sub.Some? then conn.(sub := Some(Doomed(conn.sub.value, front))) else conn
  }

  // History of a discard: which subscriptions are open while events leave the queue undelivered.
  function DoomAll(conns: map<ConnId, Conn>, front: int): map<ConnId, Conn> {
    map c | c in conns :: DoomConn(conns[c], front)
  }

  function FrontOf(op: Op): int {
    |op.log| - |op.queue|
  }

  function Registered(s: State): set<ConnId> {
    set c | c in s.conns && s.conns[c].registered
  }

  function RegisteredOf(s: State, user: string): set<ConnId> {
    set c | c in s.conns && s.conns[c].registered && s.conns[c].user == user
  }

  predicate Subscribed(s: State, c: ConnId) {
    c in s.conns && s.conns[c].sub.Some?
  }

  // ------------------------------------------------------------------ completions

  function Finish(conn: Conn, k: nat): Conn {
    conn.(runs := conn.runs - {k})
  }

  function Go(conn: Conn, k: nat, phase: Phase): Conn {
    conn.(runs := conn.runs[k := phase])
  }

  function TakeShot(op: Op, gen: nat, since: int): Snapshot {
    Snapshot(gen, since, |op.log|, Trimmed(op), Collected(op, since), Gap(op, since))
  }

  predicate FailPossible(sub: Sub, shot: Snapshot, keep: set<int>, fail: Option<nat>) {
    fail.Some? ==>
      var ms := FlushList(shot.replay, keep, sub.queue);
      fail.value < |ms| &&
      ms[fail.value].id > DeliveredAll(Marked(sub, shot.gen, shot.trimmed, shot.gap), ms[..fail.value]).lastSeq
  }

  function FlushConn(conn: Conn, k: nat, shot: Snapshot, keep: set<int>, fail: Option<nat>): Conn
    requires conn.sub.Some? ==> FailPossible(conn.sub.value, shot, keep, fail)
  {
    if conn.sub.None? then Finish(conn, k)
    else
      var ms := FlushList(shot.replay, keep, conn.sub.value.queue);
      match fail
      case None => Go(conn, k, Tell).(sub := Some(Flushed(conn.sub.value, shot.gen, shot.trimmed, shot.gap, ms)))
      case Some(j) => Go(conn, k, Hangup).(sub := Some(FlushFailed(conn.sub.value, shot.gen, shot.trimmed, shot.gap, ms, j)))
  }

  // The next section of completion k; op is the operation it reads.
  function CompleteConn(op: Op, conn: Conn, k: nat, keep: set<int>, fail: Option<nat>): Conn
    requires k in conn.runs
    requires conn.runs[k].Flush? && conn.sub.Some? ==> FailPossible(conn.sub.value, conn.runs[k].shot, keep, fail)
  {
    match conn.runs[k]
    case Start => Go(conn, k, if op.owner == "" then Park else if op.owner != conn.user then Forbidden else ReadSince)
    case Park => Go(conn, k, Recheck).(sub := if conn.sub.Some? then Some(Parked(conn.sub.value)) else None)
    case Recheck => Go(conn, k, if op.owner != "" then Unpark else Tell)
    case Unpark => Go(conn, k, Start).(sub := if conn.sub.Some? then Some(Woken(conn.sub.value)) else None)
    case Forbidden => Go(conn, k, Tell).(sub := None)
    case ReadSince => if conn.sub.None? then Finish(conn, k) else Go(conn, k, Collect(conn.sub.value.gen, conn.sub.value.lastSeq))
    case Collect(gen, since) => Go(conn, k, Flush(TakeShot(op, gen, since)))
    case Flush(shot) => FlushConn(conn, k, shot, keep, fail)
    case Tell => if fail.Some? then Go(conn, k, Hangup) else Finish(conn, k)
    case Hangup => Finish(CloseConn(conn), k)
  }

  // ------------------------------------------------------------------ drainer

  predicate DrainEnabled(s: State, d: nat, c: ConnId, ok: bool) {
    d < |s.drainers| &&
    match s.drainers[d]
    case Closing(todo) => todo != {} ==> c in todo
    case Observe(_, todo, _, _, _) => todo != {} ==> c in todo
    case Deliver(e, todo) => (todo != {} ==> c in todo)
    case _ => true
  }

  function Moved(s: State, d: nat, phase: Drainer): State
    requires d < |s.drainers|
  {
    s.(drainers := s.drainers[d := phase])
  }

  function Removed(ds: seq<Drainer>, d: nat): seq<Drainer>
    requires d < |ds|
  {
    ds[..d] + ds[d + 1..]
  }

  function Chosen(e: Message, all: set<ConnId>, executors: set<ConnId>, preferred: set<ConnId>): set<ConnId> {
    if e.kind.LlmExecute? && preferred != {} then preferred
    else if !e.kind.Broadcast? && executors != {} then executors
    else all
  }

  function ObserveOne(s: State, c: ConnId, e: Message, todo: set<ConnId>, all: set<ConnId>, executors: set<ConnId>,
                      preferred: set<ConnId>): Drainer
  {
    if !Subscribed(s, c) || s.conns[c].closed then Observe(e, todo - {c}, all, executors, preferred)
    else
      var conn := s.conns[c];
      Observe(e, todo - {c}, all + {c},
              if conn.sub.value.executor then executors + {c} else executors,
              if e.kind.LlmExecute? && e.kind.preferred != "" && conn.clientId == e.kind.preferred then preferred + {c} else preferred)
  }

  function LookedAt(s: State, c: ConnId): Routing {
    var r := s.routing.(visited := s.routing.visited + {c});
    if Subscribed(s, c) && !s.conns[c].closed
    then r.(seen := r.seen[c := Seen(s.conns[c].sub.value.executor, s.conns[c].clientId)])
    else r
  }

  function DeliverOne(s: State, d: nat, c: ConnId, ok: bool, e: Message, todo: set<ConnId>): State
    requires d < |s.drainers|
  {
    if !Subscribed(s, c) then Moved(s, d, Deliver(e, todo - {c}))
    else
      var sub := s.conns[c].sub.value;
      if sub.state.Live? && e.id > sub.lastSeq && !ok then Moved(s, d, Failed(e, todo - {c}, c))
      else WithConn(Moved(s, d, Deliver(e, todo - {c})), c, s.conns[c].(sub := Some(Offered(sub, e))))
  }

  function LoopTop(s: State, d: nat): State
    requires d < |s.drainers|
  {
    if s.op.overflow then Moved(s, d, Scan).(op := ClearOverflow(s.op), conns := DoomAll(s.conns, FrontOf(s.op)))
    else if s.op.queue == [] then s.(op := StopDraining(s.op), drainers := Removed(s.drainers, d))
    else Moved(s, d, ReadOwner(s.op.queue[0])).(op := Pop(s.op), routing := NO_ROUTING)
  }

  function DrainStep(s: State, d: nat, c: ConnId, ok: bool): State
    requires DrainEnabled(s, d, c, ok)
  {
    match s.drainers[d]
    case Loop => LoopTop(s, d)
    case Scan => Moved(s, d, Closing(Registered(s)))
    case Closing(todo) =>
      Moved(s, d, if todo == {} then Loop else if Subscribed(s, c) then ClosingOne(todo - {c}, c) else Closing(todo - {c}))
    case ClosingOne(todo, x) => Moved(CloseIn(s, x), d, Closing(todo))
    case ReadOwner(e) => Moved(s, d, List(e, s.op.owner))
    case List(e, owner) => Moved(s, d, Observe(e, RegisteredOf(s, owner), {}, {}, {}))
    case Observe(e, todo, all, executors, preferred) =>
      if todo == {} then Moved(s, d, Deliver(e, Chosen(e, all, executors, preferred)))
      else Moved(s, d, ObserveOne(s, c, e, todo, all, executors, preferred)).(routing := LookedAt(s, c))
    case Deliver(e, todo) =>
      if todo == {} then Moved(s, d, Report(e))
      else DeliverOne(s, d, c, ok, e, todo).(routing := s.routing.(handled := s.routing.handled + {c}))
    case Failed(e, todo, x) => Moved(CloseIn(s, x), d, Deliver(e, todo))
    case Report(e) => Moved(s, d, Loop).(op := s.op.(sent := s.op.sent + multiset{e.id}))
  }

  // ------------------------------------------------------------------ lifecycle passes

  predicate VisitEnabled(s: State, p: nat, c: ConnId, k: nat) {
    p in s.passes &&
    match s.passes[p]
    case Visiting(todo) => todo != {} ==> c in todo
    case Waking(_, x) => c == x && (c in s.conns ==> k != 0 && k !in s.conns[c].runs)
    case Finished => false
    case _ => true
  }

  function WakeConn(conn: Conn, k: nat): Conn {
    if conn.sub.Some? && conn.sub.value.state.Pending? then Go(conn, k, Start).(sub := Some(Woken(conn.sub.value))) else conn
  }

  function VisitStep(s: State, p: nat, c: ConnId, k: nat, ok: bool): State
    requires VisitEnabled(s, p, c, k)
  {
    match s.passes[p]
    case Announce => s.(passes := s.passes[p := if s.op.owner == "" then Finished else Listing(s.op.owner)])
    case Listing(owner) => s.(passes := s.passes[p := Visiting(RegisteredOf(s, owner))])
    case Visiting(todo) =>
      if todo == {} then s.(passes := s.passes[p := Finished])
      else if ok then s.(passes := s.passes[p := Waking(todo - {c}, c)])
      else CloseIn(s, c).(passes := s.passes[p := Visiting(todo - {c})])
    case Waking(todo, x) =>
      (if c in s.conns then WithConn(s, c, WakeConn(s.conns[c], k)) else s).(passes := s.passes[p := Visiting(todo)])
    case Finished => s
  }

  // ------------------------------------------------------------------ the system

  predicate IssueAllowed(cmd: Command) {
    !cmd.Init?
  }

  predicate Enabled(s: State, l: Label) {
    match l
    case Connect(c, user, _) => c !in s.conns && user != ""
    case Subscribe(c, _, _) => c in s.conns && 0 !in s.conns[c].runs
    case Drop(c) => c in s.conns
    case Hang(c) => c in s.conns
    case Deregister(c) => c in s.conns && s.conns[c].closed
    case Complete(c, k, _, keep, fail) => c in s.conns && k in s.conns[c].runs &&
      (s.conns[c].runs[k].Flush? && Subscribed(s, c) ==> FailPossible(s.conns[c].sub.value, s.conns[c].runs[k].shot, keep, fail))
    case Issue(cmd) => IssueAllowed(cmd)
    case Initialise(p) => p !in s.passes && (s.op.owner == "" <==> p == 0)
    case Notify(p) => p !in s.passes && p != 0
    case Visit(p, c, k, _) => VisitEnabled(s, p, c, k)
    case Drain(d, c, ok) => DrainEnabled(s, d, c, ok)
  }

  // Whether publishing finds the hub queue full and discards it.
  predicate Discards(op: Op, cmd: Command) {
    |op.queue| >= EVENT_BUFFER_MAX && |Apply(op, cmd).log| > |op.log|
  }

  function IssueStep(s: State, cmd: Command): State {
    s.(op := Apply(s.op, cmd),
       drainers := if Apply(s.op, cmd).dispatch && !s.op.dispatch then s.drainers + [Loop] else s.drainers,
       conns := if Discards(s.op, cmd) then DoomAll(s.conns, FrontOf(s.op)) else s.conns)
  }

  function CompleteStep(s: State, c: ConnId, k: nat, now: int, keep: set<int>, fail: Option<nat>): State
    requires Enabled(s, Complete(c, k, now, keep, fail))
  {
    var op := if s.conns[c].runs[k].Collect? then Pruned(s.op, now) else s.op;
    WithConn(s, c, CompleteConn(op, s.conns[c], k, keep, fail)).(op := op)
  }

  function SubscribeConn(conn: Conn, since: int, executor: bool): Conn {
    Go(conn, 0, Start).(sub := Some(Fresh(executor, since, conn.nextGen)), nextGen := conn.nextGen + 1)
  }

  function Step(s: State, l: Label): State
    requires Enabled(s, l)
  {
    match l
    case Connect(c, user, clientId) => WithConn(s, c, Conn(user, clientId, true, false, None, map[], 0))
    case Subscribe(c, since, executor) => WithConn(s, c, SubscribeConn(s.conns[c], since, executor))
    case Drop(c) => WithConn(s, c, s.conns[c].(sub := None))
    case Hang(c) => CloseIn(s, c)
    case Deregister(c) => WithConn(s, c, s.conns[c].(registered := false))
    case Complete(c, k, now, keep, fail) => CompleteStep(s, c, k, now, keep, fail)
    case Issue(cmd) => IssueStep(s, cmd)
    case Initialise(p) => s.(op := Begun(s.op, s.owner), passes := s.passes[p := Announce])
    case Notify(p) => s.(passes := s.passes[p := Announce])
    case Visit(p, c, k, ok) => VisitStep(s, p, c, k, ok)
    case Drain(d, c, ok) => DrainStep(s, d, c, ok)
  }

  ghost predicate StepAt(run: seq<State>, i: nat)
    requires i + 1 < |run|
  {
    exists l :: Enabled(run[i], l) && run[i + 1] == Step(run[i], l)
  }

  ghost predicate IsRun(run: seq<State>) {
    |run| > 0 && Initial(run[0]) && forall i :: 0 <= i < |run| - 1 ==> StepAt(run, i)
  }
}
