/**
 * The hub connection object of v2.go: its table of subscriptions and the sections that change it under the connection
 * lock, each proved against the function of Subscription that the delivery protocol uses for it. Which socket writes
 * succeed is decided by the environment, given as a predicate on messages.
 */
module HubConnection {
  import opened Wrappers
  import opened EventLog
  import opened Subscription
  import Sorting

  class HubConnection {
    const clientID: string
    const userID: string
    var closed: bool
    var subs: map<string, Sub>
    var generation: nat    // history: subscribe requests so far

    constructor (userID: string, clientID: string)
      ensures this.userID == userID && this.clientID == clientID
      ensures !closed && subs == map[] && generation == 0
    {
      this.userID, this.clientID := userID, clientID;
      closed, subs, generation := false, map[], 0;
    }

    method Subscribe(op: string, since: int, executor: bool)
      modifies this`subs, this`generation
      ensures subs == old(subs)[op := Fresh(executor, since, old(generation))] && generation == old(generation) + 1
      ensures subs[op].executor == executor && subs[op].lastSeq == since && subs[op].state == Replaying && subs[op].queue == []
    {
      subs := subs[op := Sub(executor, since, [], Replaying, generation, since, [], since, false, false, None, {})];
      generation := generation + 1;
    }

    method DropSubscription(op: string)
      modifies this`subs
      ensures subs == old(subs) - {op}
    {
      subs := subs - {op};
    }

    // No owner yet: completeSubscribe parks the subscription.
    method Park(op: string)
      modifies this`subs
      ensures subs == if op in old(subs) then old(subs)[op := Parked(old(subs)[op])] else old(subs)
    {
      if op in subs {
        subs := subs[op := subs[op].(state := Pending, queue := [])];
      }
    }

    // The owner is known: taken back by completeSubscribe itself or by notifyLifecycle.
    method TakeBack(op: string) returns (was: bool)
      modifies this`subs
      ensures was == (op in old(subs) && old(subs)[op].state.Pending?)
      ensures subs == if op in old(subs) then old(subs)[op := Woken(old(subs)[op])] else old(subs)
    {
      was := op in subs && subs[op].state.Pending?;
      if was {
        subs := subs[op := subs[op].(state := Replaying, queue := [])];
      }
    }

    // Returns whether the write failed; a duplicate is dropped without writing.
    method DeliverLocked(op: string, m: Message, writable: Message -> bool) returns (failed: bool)
      requires op in subs
      modifies this`subs
      ensures failed == (m.id > old(subs)[op].lastSeq && !writable(m))
      ensures subs == if failed then old(subs) else old(subs)[op := Delivered(old(subs)[op], m)]
    {
      var sub := subs[op];
      if m.id <= sub.lastSeq { return false; }
      if !writable(m) { return true; }
      subs := subs[op := sub.(lastSeq := m.id, written := sub.written + [m], lost := sub.lost - {m.id})];
      return false;
    }

    // The drainer's section for one chosen connection (deliverOperationEvent).
    method DeliverEvent(op: string, m: Message, writable: Message -> bool) returns (counted: bool, failed: bool)
      modifies this`subs
      ensures counted == (op in old(subs))
      ensures failed == (counted && old(subs)[op].state.Live? && m.id > old(subs)[op].lastSeq && !writable(m))
      ensures subs == if counted && !failed then old(subs)[op := Offered(old(subs)[op], m)] else old(subs)
    {
      counted, failed := op in subs, false;
      if counted {
        var sub := subs[op];
        if sub.state.Replaying? {
          subs := subs[op := sub.(queue := sub.queue + [m])];
        } else if sub.state.Live? {
          failed := DeliverLocked(op, m, writable);
        }
      }
    }

    // Writes until the first failure, whose index it returns.
    method WriteAll(op: string, ms: seq<Message>, writable: Message -> bool) returns (fail: Option<nat>)
      requires op in subs
      modifies this`subs
      ensures fail == None ==> subs == old(subs)[op := DeliveredAll(old(subs)[op], ms)]
      ensures fail.Some? ==> fail.value < |ms| && !writable(ms[fail.value])
      ensures fail.Some? ==> op in subs && subs == old(subs)[op := DeliveredAll(old(subs)[op], ms[..fail.value])]
      ensures fail.Some? ==> ms[fail.value].id > subs[op].lastSeq
    {
      var i := 0;
      while i < |ms|
        invariant 0 <= i <= |ms| && op in subs
        invariant subs == old(subs)[op := DeliveredAll(old(subs)[op], ms[..i])]
      {
        assert ms[..i + 1][..i] == ms[..i];
        var failed := DeliverLocked(op, ms[i], writable);
        if failed { return Some(i); }
        i := i + 1;
      }
      assert ms[..i] == ms;
      return None;
    }

    // The section of completeSubscribe that writes replay and queue; j is the index of the failed write, if any.
    method FlushReplay(op: string, shot: Snapshot, keep: set<int>, writable: Message -> bool) returns (fail: Option<nat>)
      modifies this`subs
      ensures op !in old(subs) ==> subs == old(subs) && fail == None
      ensures op in old(subs) ==> FlushResult(old(subs), subs, op, shot, keep, writable, fail)
    {
      if op !in subs { return None; }
      var events := FilterTargets(shot.replay, keep);
      var ms := events + Sorting.Stable(subs[op].queue, Earlier);
      ghost var base := Marked(subs[op], shot.gen, shot.trimmed, shot.gap);
      subs := subs[op := Marked(subs[op], shot.gen, shot.trimmed, shot.gap)];
      fail := WriteAll(op, ms, writable);
      if fail.Some? {
        Overwrite(old(subs), op, base, DeliveredAll(base, ms[..fail.value]));
        return;
      }
      Overwrite(old(subs), op, base, DeliveredAll(base, ms));
      Overwrite(old(subs), op, DeliveredAll(base, ms), DeliveredAll(base, ms).(queue := [], state := Live));
      subs := subs[op := subs[op].(queue := [], state := Live)];
    }

    static ghost predicate FlushResult(before: map<string, Sub>, after: map<string, Sub>, op: string, shot: Snapshot, keep: set<int>,
                                       writable: Message -> bool, fail: Option<nat>)
      requires op in before
    {
      var sub, ms := before[op], FlushList(shot.replay, keep, before[op].queue);
      match fail
      case None => after == before[op := Flushed(sub, shot.gen, shot.trimmed, shot.gap, ms)]
      case Some(j) =>
        && j < |ms| && !writable(ms[j])
        && ms[j].id > FlushFailed(sub, shot.gen, shot.trimmed, shot.gap, ms, j).lastSeq
        && after == before[op := FlushFailed(sub, shot.gen, shot.trimmed, shot.gap, ms, j)]
    }

    method Close() returns (first: bool)
      modifies this`closed, this`subs
      ensures first == !old(closed) && closed
      ensures subs == if first then map[] else old(subs)
    {
      if closed { return false; }
      closed := true;
      subs := map[];
      return true;
    }
  }

  lemma Overwrite<K, V>(m: map<K, V>, k: K, a: V, b: V)
    ensures m[k := a][k := b] == m[k := b]
  {
  }

  // ------------------------------------------------------------------ targets

  // A registered connection of the owner that is subscribed to the operation and open.
  predicate Attends(registered: set<HubConnection>, owner: string, op: string, c: HubConnection)
    reads registered
  {
    c in registered && c.userID == owner && op in c.subs && !c.closed
  }

  ghost predicate AnyExecutor(registered: set<HubConnection>, owner: string, op: string)
    reads registered
  {
    exists c :: c in registered && Attends(registered, owner, op, c) && c.subs[op].executor
  }

  ghost predicate AnyPreferred(registered: set<HubConnection>, owner: string, op: string, preferred: string)
    reads registered
  {
    preferred != "" && exists c :: c in registered && Attends(registered, owner, op, c) && c.clientID == preferred
  }

  // Who an event is for: everybody attending; the executors of a tool execution, if there are any; for an LLM execution
  // the connections of the preferred client, if there are any, else the same as for a tool execution.
  ghost predicate Target(registered: set<HubConnection>, owner: string, op: string, kind: Kind, c: HubConnection)
    reads registered
  {
    Attends(registered, owner, op, c) &&
    match kind
    case Broadcast => true
    case ToolExecute => AnyExecutor(registered, owner, op) ==> c.subs[op].executor
    case LlmExecute(_, preferred) =>
      if AnyPreferred(registered, owner, op, preferred) then c.clientID == preferred
      else AnyExecutor(registered, owner, op) ==> c.subs[op].executor
  }

  // Looks at the connections in any order. The drainer may be interrupted between two of them; see Delivery for that.
  method OperationTargets(registered: set<HubConnection>, owner: string, op: string, kind: Kind)
      returns (chosen: set<HubConnection>)
    ensures forall c :: c in chosen <==> Target(registered, owner, op, kind, c)
  {
    var all: set<HubConnection>, executors: set<HubConnection>, preferred: set<HubConnection> := {}, {}, {};
    var todo := registered;
    while todo != {}
      invariant todo <= registered
      invariant forall c :: c in all <==> Attends(registered, owner, op, c) && c !in todo
      invariant forall c :: c in executors <==> Attends(registered, owner, op, c) && c !in todo && c.subs[op].executor
      invariant forall c :: c in preferred <==>
        Attends(registered, owner, op, c) && c !in todo && kind.LlmExecute? && kind.preferred != "" && c.clientID == kind.preferred
      decreases |todo|
    {
      var c :| c in todo;
      todo := todo - {c};
      if c.userID == owner && op in c.subs && !c.closed {
        all := all + {c};
        if c.subs[op].executor { executors := executors + {c}; }
        if kind.LlmExecute? && kind.preferred != "" && c.clientID == kind.preferred { preferred := preferred + {c}; }
      }
    }
    if kind.LlmExecute? && preferred != {} {
      ghost var c :| c in preferred;
      return preferred;
    }
    if !kind.Broadcast? && executors != {} {
      ghost var c :| c in executors;
      return executors;
    }
    return all;
  }

  // The attempts of a replay that connection c is a target of.
  method ChosenAttempts(registered: set<HubConnection>, owner: string, op: string, events: seq<Message>, c: HubConnection)
      returns (keep: set<int>)
    requires Increasing(events)
    ensures forall m :: m in events && m.kind.LlmExecute? ==> (m.id in keep <==> Target(registered, owner, op, m.kind, c))
  {
    keep := {};
    for i := 0 to |events|
      invariant forall id :: id in keep ==> exists j :: 0 <= j < i && events[j].id == id
      invariant forall j :: 0 <= j < i && events[j].kind.LlmExecute? ==>
        (events[j].id in keep <==> Target(registered, owner, op, events[j].kind, c))
    {
      if events[i].kind.LlmExecute? {
        var chosen := OperationTargets(registered, owner, op, events[i].kind);
        if c in chosen { keep := keep + {events[i].id}; }
      }
    }
  }

  // Drops the llm_execute events that this connection is not a target of.
  method FilterTargets(events: seq<Message>, keep: set<int>) returns (filtered: seq<Message>)
    ensures filtered == Targeted(events, keep)
    ensures forall m :: m in filtered <==> m in events && (m.kind.LlmExecute? ==> m.id in keep)
    ensures Increasing(events) ==> Increasing(filtered)
  {
    TargetedExactly(events, keep);
    filtered := [];
    var i := 0;
    while i < |events|
      invariant 0 <= i <= |events| && filtered == Targeted(events[..i], keep)
    {
      assert events[..i + 1][..i] == events[..i];
      if !(events[i].kind.LlmExecute? && events[i].id !in keep) {
        filtered := filtered + [events[i]];
      }
      i := i + 1;
    }
    assert events[..i] == events;
  }
}
