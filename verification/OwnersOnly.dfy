/** The events of an operation go to connections of its owner and to nobody else's. */
module OwnersOnly {
  import opened Wrappers
  import opened EventLog
  import opened Subscription
  import opened Delivery
  import opened Continuity
  import opened DeliveryInvariant
  import opened DeliverySteps

  // A connection of another user has been sent nothing, has nothing queued, and none of its completions is past the check.
  ghost predicate Untouched(conn: Conn) {
    && (forall k :: k in conn.runs ==> !Resuming(conn.runs[k]))
    && (conn.sub.Some? ==> conn.sub.value.written == [] && conn.sub.value.queue == [])
  }

  ghost predicate Private(owner: string, conn: Conn) {
    conn.user != "" && (conn.user != owner ==> Untouched(conn))
  }

  predicate AllOf(s: State, cs: set<ConnId>) {
    forall c :: c in cs ==> c in s.conns && s.conns[c].user == s.owner
  }

  // The drainer looks only at connections of the owner.
  predicate LooksAtOwn(s: State, d: Drainer) {
    match d
    case List(_, owner) => owner == "" || owner == s.owner
    case Observe(_, todo, all, _, _) => AllOf(s, todo) && AllOf(s, all)
    case Deliver(_, todo) => AllOf(s, todo)
    case Failed(_, todo, _) => AllOf(s, todo)
    case _ => true
  }

  ghost predicate Isolated(s: State) {
    && (forall c :: c in s.conns ==> Private(s.owner, s.conns[c]))
    && (s.drainers != [] ==> LooksAtOwn(s, s.drainers[0]))
  }

  // The connections of t are those of s, of the same users, or newly registered ones.
  ghost predicate SameUsers(s: State, t: State) {
    t.owner == s.owner && forall c :: c in s.conns ==> c in t.conns && t.conns[c].user == s.conns[c].user
  }

  lemma StillOwn(s: State, t: State, d: Drainer)
    requires LooksAtOwn(s, d) && SameUsers(s, t)
    ensures LooksAtOwn(t, d)
  {
  }

  lemma CompletePrivate(owner: string, op: Op, conn: Conn, k: nat, keep: set<int>, fail: Option<nat>)
    requires Private(owner, conn) && k in conn.runs && (op.owner == "" || op.owner == owner)
    requires conn.runs[k].Flush? && conn.sub.Some? ==> FailPossible(conn.sub.value, conn.runs[k].shot, keep, fail)
    ensures Private(owner, CompleteConn(op, conn, k, keep, fail)) && CompleteConn(op, conn, k, keep, fail).user == conn.user
  {
    hide CompleteConn, FailPossible, Untouched;
    CompleteContinues(op, conn, k, keep, fail);
    if conn.user != owner { StrangerCompletes(owner, op, conn, k, keep, fail); }
  }

  // A completion of another user's subscription is turned away before it reads a position.
  lemma StrangerCompletes(owner: string, op: Op, conn: Conn, k: nat, keep: set<int>, fail: Option<nat>)
    requires Untouched(conn) && conn.user != "" && conn.user != owner && k in conn.runs && (op.owner == "" || op.owner == owner)
    ensures !conn.runs[k].Flush? && Untouched(CompleteConn(op, conn, k, keep, fail))
  {
    hide CompleteConn;
    assert !Resuming(conn.runs[k]);
    StrangerRuns(owner, op, conn, k, keep, fail);
    StrangerSub(op, conn, k, keep, fail);
  }

  lemma StrangerRuns(owner: string, op: Op, conn: Conn, k: nat, keep: set<int>, fail: Option<nat>)
    requires k in conn.runs && !Resuming(conn.runs[k]) && conn.user != "" && conn.user != owner
    requires op.owner == "" || op.owner == owner
    ensures var runs := CompleteConn(op, conn, k, keep, fail).runs;
      forall j :: j in runs ==> if j == k then !Resuming(runs[j]) else j in conn.runs && runs[j] == conn.runs[j]
  {
    hide Parked, Woken, FlushConn, TakeShot;
    match conn.runs[k]
    case Start =>
    case Hangup =>
    case _ =>
  }

  lemma StrangerSub(op: Op, conn: Conn, k: nat, keep: set<int>, fail: Option<nat>)
    requires k in conn.runs && !Resuming(conn.runs[k])
    ensures var sub := CompleteConn(op, conn, k, keep, fail).sub;
      sub.Some? ==> conn.sub.Some? && sub.value.written == conn.sub.value.written && (sub.value.queue == [] || sub.value.queue == conn.sub.value.queue)
  {
  }

  lemma CompleteIsolated(s: State, c: ConnId, k: nat, now: int, keep: set<int>, fail: Option<nat>)
    requires Base(s) && Isolated(s) && Enabled(s, Complete(c, k, now, keep, fail))
    ensures Isolated(CompleteStep(s, c, k, now, keep, fail))
  {
    hide CompleteConn, Private, LooksAtOwn;
    var t := CompleteStep(s, c, k, now, keep, fail);
    var op := if s.conns[c].runs[k].Collect? then Pruned(s.op, now) else s.op;
    CompletePrivate(s.owner, op, s.conns[c], k, keep, fail);
    if s.drainers != [] { StillOwn(s, t, s.drainers[0]); }
  }

  // One connection changes, keeping its user, or registers.
  lemma OneIsolated(s: State, t: State, c: ConnId)
    requires Isolated(s) && t.owner == s.owner && t.drainers == s.drainers && c in t.conns && t.conns == s.conns[c := t.conns[c]]
    requires Private(s.owner, t.conns[c]) && (c in s.conns ==> t.conns[c].user == s.conns[c].user)
    ensures Isolated(t)
  {
    if s.drainers != [] { StillOwn(s, t, s.drainers[0]); }
  }

  lemma AtLoop(s: State)
    ensures LooksAtOwn(s, Loop)
  {
  }

  lemma IssueIsolated(s: State, cmd: Command)
    requires Base(s) && Isolated(s)
    ensures Isolated(IssueStep(s, cmd))
  {
    hide Apply, LooksAtOwn;
    var t := IssueStep(s, cmd);
    if s.drainers != [] { StillOwn(s, t, s.drainers[0]); } else { AtLoop(t); }
  }

  lemma ClosePrivate(s: State, c: ConnId)
    requires Isolated(s)
    ensures SameUsers(s, CloseIn(s, c)) && CloseIn(s, c).drainers == s.drainers
    ensures forall x :: x in CloseIn(s, c).conns ==> Private(s.owner, CloseIn(s, c).conns[x])
  {
  }

  lemma WakePrivate(owner: string, conn: Conn, k: nat)
    requires Private(owner, conn)
    ensures Private(owner, WakeConn(conn, k)) && WakeConn(conn, k).user == conn.user
  {
  }

  lemma VisitIsolated(s: State, p: nat, c: ConnId, k: nat, ok: bool)
    requires Isolated(s) && VisitEnabled(s, p, c, k)
    ensures Isolated(VisitStep(s, p, c, k, ok))
  {
    hide LooksAtOwn, Private, WakeConn, CloseIn, RegisteredOf;
    var t := VisitStep(s, p, c, k, ok);
    ClosePrivate(s, c);
    if c in s.conns { WakePrivate(s.owner, s.conns[c], k); }
    assert SameUsers(s, t) && t.drainers == s.drainers;
    if s.drainers != [] { StillOwn(s, t, s.drainers[0]); }
  }

  lemma OfferPrivate(s: State, d: nat, c: ConnId, ok: bool, e: Message, todo: set<ConnId>)
    requires Isolated(s) && d < |s.drainers| && (c in s.conns ==> s.conns[c].user == s.owner)
    ensures var t := DeliverOne(s, d, c, ok, e, todo);
      SameUsers(s, t) && forall x :: x in t.conns ==> Private(s.owner, t.conns[x])
  {
    hide Offered;
  }

  lemma LoopPrivate(s: State, d: nat)
    requires Isolated(s) && d < |s.drainers|
    ensures SameUsers(s, LoopTop(s, d)) && forall x :: x in LoopTop(s, d).conns ==> Private(s.owner, LoopTop(s, d).conns[x])
  {
  }

  lemma DrainIsolated(s: State, d: nat, c: ConnId, ok: bool)
    requires Base(s) && Isolated(s) && DrainEnabled(s, d, c, ok)
    ensures Isolated(DrainStep(s, d, c, ok))
  {
    OnlyDrainer(s, d, c, ok);
    hide LookedAt, LoopTop, DeliverOne, Private, Offered;
    var t := DrainStep(s, 0, c, ok);
    match s.drainers[0]
    case Loop =>
      LoopPrivate(s, 0);
      assert t.drainers == [] || LooksAtOwn(t, t.drainers[0]) by { LoopDrainers(s); }
    case ClosingOne(_, x) => ClosePrivate(s, x);
    case Failed(e, todo, x) =>
      ClosePrivate(s, x);
      StillOwn(s, t, Deliver(e, todo));
    case Deliver(e, todo) =>
      if todo != {} {
        OfferPrivate(s, 0, c, ok, e, todo);
        OfferDrainers(s, c, ok, e, todo);
        StillOwn(s, t, Deliver(e, todo));
      }
    case _ =>
  }

  lemma LoopDrainers(s: State)
    requires s.drainers == [Loop]
    ensures var ds := LoopTop(s, 0).drainers; ds == [] || (|ds| == 1 && (ds[0].Scan? || ds[0].ReadOwner?))
  {
  }

  lemma OfferDrainers(s: State, c: ConnId, ok: bool, e: Message, todo: set<ConnId>)
    requires s.drainers == [Deliver(e, todo)]
    ensures var ds := DeliverOne(s, 0, c, ok, e, todo).drainers; ds == [Deliver(e, todo - {c})] || ds == [Failed(e, todo - {c}, c)]
  {
  }

  lemma StepIsolated(s: State, l: Label)
    requires Base(s) && Isolated(s) && Enabled(s, l)
    ensures Isolated(Step(s, l))
  {
    hide CompleteStep, DrainStep, VisitStep, IssueStep, LooksAtOwn;
    var t := Step(s, l);
    match l
    case Connect(c, _, _) => OneIsolated(s, t, c);
    case Subscribe(c, _, _) => OneIsolated(s, t, c);
    case Drop(c) => OneIsolated(s, t, c);
    case Hang(c) => OneIsolated(s, t, c);
    case Deregister(c) => OneIsolated(s, t, c);
    case Complete(c, k, now, keep, fail) => CompleteIsolated(s, c, k, now, keep, fail);
    case Issue(cmd) => IssueIsolated(s, cmd);
    case Initialise(_) => if s.drainers != [] { StillOwn(s, t, s.drainers[0]); }
    case Notify(_) => if s.drainers != [] { StillOwn(s, t, s.drainers[0]); }
    case Visit(p, c, k, ok) => VisitIsolated(s, p, c, k, ok);
    case Drain(d, c, ok) => DrainIsolated(s, d, c, ok);
  }

  lemma {:induction false} AlwaysIsolated(run: seq<State>, i: nat)
    requires IsRun(run) && i < |run|
    ensures Isolated(run[i])
  {
    if i == 0 {
    } else {
      var before := i - 1;
      AlwaysIsolated(run, before);
      Reachable(run, before);
      assert StepAt(run, before);
      var l :| Enabled(run[before], l) && run[before + 1] == Step(run[before], l);
      StepIsolated(run[before], l);
    }
  }

  // Whatever connects, subscribes and overlaps: a connection of a user who is not the owner is never sent an event of the
  // operation, by the drainer or by a replay, and none is kept for it.
  lemma StrangersGetNothing(run: seq<State>, i: nat, c: ConnId)
    requires IsRun(run) && i < |run| && Subscribed(run[i], c) && run[i].conns[c].user != run[i].owner
    ensures run[i].conns[c].sub.value.written == [] && run[i].conns[c].sub.value.queue == []
  {
    AlwaysIsolated(run, i);
  }
}
