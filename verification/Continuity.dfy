/** What a section of the delivery protocol leaves as it is: users, subscriptions and the other completions. */
module Continuity {
  import opened Wrappers
  import opened EventLog
  import opened Subscription
  import opened Delivery

  // The subscription is the one that was requested before, and as doomed as before.
  ghost predicate SameRequest(sub: Sub, sub': Sub) {
    && sub'.gen == sub.gen && sub'.since == sub.since && sub'.executor == sub.executor
    && (sub.doomed.Some? ==> sub'.doomed == sub.doomed)
  }

  // The connection is the same user's, and its subscription is gone or still the same.
  ghost predicate Continues(conn: Conn, conn': Conn) {
    && conn'.user == conn.user && conn'.clientId == conn.clientId && conn'.nextGen == conn.nextGen
    && (conn.closed ==> conn'.closed)
    && (conn'.sub.Some? ==> conn.sub.Some? && SameRequest(conn.sub.value, conn'.sub.value))
  }

  // Nor has an earlier completion flushed into it, and completions are where they were; one more may have been started.
  ghost predicate Undisturbed(conn: Conn, conn': Conn) {
    && Continues(conn, conn')
    && (conn'.sub.Some? ==> conn'.sub.value.foreign == conn.sub.value.foreign)
    && conn.runs.Keys <= conn'.runs.Keys
    && (forall j :: j in conn'.runs ==> if j in conn.runs then conn'.runs[j] == conn.runs[j] else conn'.runs[j].Start?)
  }

  ghost predicate AllUndisturbed(s: State, t: State) {
    && t.conns.Keys == s.conns.Keys && t.op.log == s.op.log && t.owner == s.owner
    && forall c :: c in s.conns ==> Undisturbed(s.conns[c], t.conns[c])
  }

  // Nothing is sent to the connection, or kept to be sent.
  ghost predicate NothingGained(conn: Conn, conn': Conn) {
    conn.sub.Some? && conn'.sub.Some? ==>
      conn'.sub.value.queue == conn.sub.value.queue && conn'.sub.value.written == conn.sub.value.written
  }

  lemma CompleteContinues(op: Op, conn: Conn, k: nat, keep: set<int>, fail: Option<nat>)
    requires k in conn.runs
    requires conn.runs[k].Flush? && conn.sub.Some? ==> FailPossible(conn.sub.value, conn.runs[k].shot, keep, fail)
    ensures Continues(conn, CompleteConn(op, conn, k, keep, fail))
    ensures CompleteConn(op, conn, k, keep, fail).runs - {k} == conn.runs - {k}
  {
    hide FailPossible, TakeShot, FlushConn;
    match conn.runs[k]
    case Flush(shot) => FlushContinues(conn, k, shot, keep, fail);
    case _ =>
  }

  lemma FlushContinues(conn: Conn, k: nat, shot: Snapshot, keep: set<int>, fail: Option<nat>)
    requires conn.sub.Some? ==> FailPossible(conn.sub.value, shot, keep, fail)
    ensures Continues(conn, FlushConn(conn, k, shot, keep, fail)) && FlushConn(conn, k, shot, keep, fail).runs - {k} == conn.runs - {k}
  {
    hide FlushList, DeliveredAll, Range;
    if conn.sub.Some? {
      var sub := conn.sub.value;
      var ms := FlushList(shot.replay, keep, sub.queue);
      DeliveryShape(Marked(sub, shot.gen, shot.trimmed, shot.gap), if fail.Some? then ms[..fail.value] else ms);
    }
  }

  lemma DrainContinues(s: State, d: nat, x: ConnId, ok: bool)
    requires DrainEnabled(s, d, x, ok)
    ensures AllUndisturbed(s, DrainStep(s, d, x, ok))
  {
    hide ObserveOne, Chosen, LookedAt, RegisteredOf, Registered, LoopTop, DeliverOne, CloseIn, Undisturbed;
    Itself(s);
    match s.drainers[d]
    case Loop => LoopContinues(s, d);
    case Deliver(e, todo) => OfferContinues(s, d, x, ok, e, todo);
    case ClosingOne(_, y) => CloseContinues(s, y);
    case Failed(_, _, y) => CloseContinues(s, y);
    case _ =>
  }

  lemma Itself(s: State)
    ensures AllUndisturbed(s, s)
  {
  }

  lemma LoopContinues(s: State, d: nat)
    requires d < |s.drainers|
    ensures AllUndisturbed(s, LoopTop(s, d)) && forall c :: c in s.conns ==> NothingGained(s.conns[c], LoopTop(s, d).conns[c])
  {
  }

  lemma OfferContinues(s: State, d: nat, x: ConnId, ok: bool, e: Message, todo: set<ConnId>)
    requires d < |s.drainers|
    ensures AllUndisturbed(s, DeliverOne(s, d, x, ok, e, todo))
    ensures forall c :: c in s.conns && c != x ==> NothingGained(s.conns[c], DeliverOne(s, d, x, ok, e, todo).conns[c])
  {
    hide Offered;
    if Subscribed(s, x) { OfferedContinues(s.conns[x].sub.value, e); }
  }

  lemma OfferedContinues(sub: Sub, e: Message)
    ensures SameRequest(sub, Offered(sub, e)) && Offered(sub, e).foreign == sub.foreign
  {
  }

  lemma CloseContinues(s: State, y: ConnId)
    ensures AllUndisturbed(s, CloseIn(s, y)) && forall c :: c in s.conns ==> NothingGained(s.conns[c], CloseIn(s, y).conns[c])
  {
  }

  lemma WakeContinues(conn: Conn, k: nat)
    requires k !in conn.runs
    ensures Undisturbed(conn, WakeConn(conn, k))
  {
  }

  // A lifecycle pass may start a completion besides.
  lemma VisitContinues(s: State, p: nat, x: ConnId, k: nat, ok: bool)
    requires VisitEnabled(s, p, x, k)
    ensures AllUndisturbed(s, VisitStep(s, p, x, k, ok))
  {
    hide CloseIn, WakeConn, Undisturbed;
    Itself(s);
    CloseContinues(s, x);
    if x in s.conns && k !in s.conns[x].runs { WakeContinues(s.conns[x], k); }
  }
}
