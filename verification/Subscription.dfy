/**
 * One subscription of a hub connection (v2.go): what the sections under the connection lock do to it.
 * The fields after `state` are history, used to say what the client has seen; no decision reads them.
 */
module Subscription {
  import opened Wrappers
  import opened EventLog
  import Sorting

  datatype SubState = Replaying | Pending | Live

  datatype Sub = Sub(
    executor: bool,
    lastSeq: int,
    queue: seq<Message>,
    state: SubState,
    gen: nat,                // which subscribe request created it
    since: int,              // the resume id of that request
    written: seq<Message>,   // events written to the client for this subscription
    floor: int,              // every event lost to a reported gap has an id up to here
    gapped: bool,            // a completion that found a gap has flushed
    foreign: bool,           // a completion of an earlier subscription has flushed into this one
    doomed: Option<int>,     // set when queued events are discarded: all ids above it may be missing from the queue
    lost: set<int>)          // ids that a flush found trimmed, less those written since

  function Fresh(executor: bool, since: int, gen: nat): Sub {
    Sub(executor, since, [], Replaying, gen, since, [], since, false, false, None, {})
  }

  function Parked(sub: Sub): Sub {
    sub.(state := Pending, queue := [])
  }

  function Woken(sub: Sub): Sub {
    if sub.state.Pending? then sub.(state := Replaying, queue := []) else sub
  }

  // A successful deliverLocked.
  function Delivered(sub: Sub, m: Message): Sub {
    if m.id <= sub.lastSeq then sub else sub.(lastSeq := m.id, written := sub.written + [m], lost := sub.lost - {m.id})
  }

  function DeliveredAll(sub: Sub, ms: seq<Message>): Sub {
    if ms == [] then sub else Delivered(DeliveredAll(sub, ms[..|ms| - 1]), ms[|ms| - 1])
  }

  // The drainer's section for an event and a subscriber chosen for it, when the write succeeds.
  function Offered(sub: Sub, m: Message): Sub {
    match sub.state
    case Replaying => sub.(queue := sub.queue + [m])
    case Live => Delivered(sub, m)
    case Pending => sub
  }

  // A replay without the llm_execute events this connection was not chosen for.
  function Targeted(replay: seq<Message>, keep: set<int>): seq<Message> {
    if replay == [] then []
    else
      var r := Targeted(replay[..|replay| - 1], keep);
      var m := replay[|replay| - 1];
      if m.kind.LlmExecute? && m.id !in keep then r else r + [m]
  }

  function FlushList(replay: seq<Message>, keep: set<int>, queue: seq<Message>): seq<Message> {
    Targeted(replay, keep) + Sorting.Stable(queue, Earlier)
  }

  function Max(a: int, b: int): int {
    if a < b then b else a
  }

  // The ids above lo, up to hi.
  function Range(lo: int, hi: int): (r: set<int>)
    ensures forall id :: id in r <==> lo < id <= hi
    decreases hi - lo
  {
    if hi <= lo then {} else Range(lo, hi - 1) + {hi}
  }

  // History of a flush that finds the first `trimmed` events gone from the buffer: it gives them up, as far as they are
  // above the position, and what it then writes it takes up again.
  function Marked(sub: Sub, gen: nat, trimmed: int, gap: bool): Sub {
    sub.(foreign := sub.foreign || gen != sub.gen,
         gapped := sub.gapped || gap,
         floor := if trimmed > sub.lastSeq then Max(sub.floor, trimmed) else sub.floor,
         lost := sub.lost + Range(sub.lastSeq, trimmed))
  }

  function Flushed(sub: Sub, gen: nat, trimmed: int, gap: bool, ms: seq<Message>): Sub {
    DeliveredAll(Marked(sub, gen, trimmed, gap), ms).(queue := [], state := Live)
  }

  // The flush stops at the first failed write, that of ms[j].
  function FlushFailed(sub: Sub, gen: nat, trimmed: int, gap: bool, ms: seq<Message>, j: nat): Sub
    requires j <= |ms|
  {
    DeliveredAll(Marked(sub, gen, trimmed, gap), ms[..j])
  }

  function Doomed(sub: Sub, front: int): Sub {
    if sub.doomed.Some? then sub else sub.(doomed := Some(front))
  }

  // ------------------------------------------------------------------ what delivery does

  // The fields that delivery does not touch.
  ghost predicate SameShape(a: Sub, b: Sub) {
    && a.executor == b.executor && a.queue == b.queue && a.state == b.state && a.gen == b.gen && a.since == b.since
    && a.floor == b.floor && a.gapped == b.gapped && a.foreign == b.foreign && a.doomed == b.doomed
  }

  ghost predicate WrittenOk(log: seq<Message>, sub: Sub) {
    && Increasing(sub.written)
    && (forall m :: m in sub.written ==> IsIssued(log, m) && sub.since < m.id <= sub.lastSeq)
    && sub.lastSeq == (if sub.written == [] then sub.since else sub.written[|sub.written| - 1].id)
  }

  lemma DeliveredOk(log: seq<Message>, sub: Sub, m: Message)
    requires WrittenOk(log, sub) && IsIssued(log, m)
    ensures WrittenOk(log, Delivered(sub, m)) && SameShape(Delivered(sub, m), sub)
    ensures sub.written <= Delivered(sub, m).written
    ensures Delivered(sub, m).lastSeq == Max(sub.lastSeq, m.id)
  {
  }

  lemma {:induction false} DeliveredAllFacts(log: seq<Message>, sub: Sub, ms: seq<Message>)
    requires WrittenOk(log, sub)
    requires forall m :: m in ms ==> IsIssued(log, m)
    ensures WrittenOk(log, DeliveredAll(sub, ms)) && SameShape(DeliveredAll(sub, ms), sub)
    ensures sub.written <= DeliveredAll(sub, ms).written
    ensures sub.lastSeq <= DeliveredAll(sub, ms).lastSeq
    ensures forall m :: m in ms ==> m.id <= DeliveredAll(sub, ms).lastSeq
    ensures DeliveredAll(sub, ms).lastSeq == sub.lastSeq || exists m :: m in ms && m.id == DeliveredAll(sub, ms).lastSeq
  {
    if ms == [] {
    } else {
      var front, last := ms[..|ms| - 1], ms[|ms| - 1];
      assert last in ms;
      assert forall m :: m in ms <==> m in front || m == last;
      DeliveredAllFacts(log, sub, front);
      DeliveredOk(log, DeliveredAll(sub, front), last);
    }
  }

  // An increasing list is delivered completely above the old position.
  lemma {:induction false} IncreasingDelivered(log: seq<Message>, sub: Sub, ms: seq<Message>)
    requires WrittenOk(log, sub) && Increasing(ms)
    requires forall m :: m in ms ==> IsIssued(log, m)
    ensures forall m :: m in ms && m.id > sub.lastSeq ==> m in DeliveredAll(sub, ms).written
  {
    if ms == [] {
    } else {
      var front, last := ms[..|ms| - 1], ms[|ms| - 1];
      IncreasingDelivered(log, sub, front);
      DeliveredAllFacts(log, sub, front);
      assert forall m :: m in front ==> m.id < last.id;
      assert forall m :: m in ms <==> m in front || m == last;
    }
  }

  lemma {:induction false} DeliveryShape(sub: Sub, ms: seq<Message>)
    ensures SameShape(DeliveredAll(sub, ms), sub)
  {
    if ms == [] {
    } else {
      DeliveryShape(sub, ms[..|ms| - 1]);
    }
  }

  lemma {:induction false} DeliveredAllConcat(sub: Sub, a: seq<Message>, b: seq<Message>)
    ensures DeliveredAll(sub, a + b) == DeliveredAll(DeliveredAll(sub, a), b)
  {
    if b == [] {
      assert a + b == a;
    } else {
      DeliveredAllConcat(sub, a, b[..|b| - 1]);
      assert (a + b)[..|a + b| - 1] == a + b[..|b| - 1];
    }
  }

  lemma {:induction false} TargetedFacts(replay: seq<Message>, keep: set<int>)
    requires Increasing(replay)
    ensures Increasing(Targeted(replay, keep))
    ensures forall m :: m in Targeted(replay, keep) ==> m in replay
    ensures forall m :: m in replay && !m.kind.LlmExecute? ==> m in Targeted(replay, keep)
  {
    if replay == [] {
    } else {
      var front := replay[..|replay| - 1];
      TargetedFacts(front, keep);
      assert forall m :: m in front ==> m.id < replay[|replay| - 1].id;
      assert forall m :: m in replay <==> m in front || m == replay[|replay| - 1];
    }
  }

  // What is left of a replay is everything but the llm_execute events that are not to be kept, in the order of the replay.
  lemma {:induction false} TargetedExactly(replay: seq<Message>, keep: set<int>)
    ensures forall m :: m in Targeted(replay, keep) <==> m in replay && (m.kind.LlmExecute? ==> m.id in keep)
    ensures Increasing(replay) ==> Increasing(Targeted(replay, keep))
  {
    if replay == [] {
    } else {
      var front := replay[..|replay| - 1];
      TargetedExactly(front, keep);
      assert forall m :: m in replay <==> m in front || m == replay[|replay| - 1];
      if Increasing(replay) { TargetedFacts(replay, keep); }
    }
  }

  // ------------------------------------------------------------------ coverage

  // Every broadcast event with an id in (lo, hi] is held, or is the one in flight.
  ghost predicate Covered(log: seq<Message>, lo: int, hi: int, held: seq<Message>, flying: Option<Message>) {
    forall i :: 0 <= i < |log| && lo < i + 1 <= hi && log[i].kind.Broadcast? ==> log[i] in held || flying == Some(log[i])
  }

  // Queued events below `front`, the in-flight event excluded, in order.
  ghost predicate QueueOk(log: seq<Message>, front: int, flying: Option<Message>, sub: Sub) {
    && Increasing(sub.queue)
    && (forall m :: m in sub.queue ==> IsIssued(log, m) && m.id <= front && (flying.Some? ==> m.id < flying.value.id))
    && (!sub.state.Replaying? ==> sub.queue == [])
  }

  function Front(f: int, sub: Sub): int {
    if sub.doomed.Some? then sub.doomed.value else f
  }

  ghost predicate FlyingOk(log: seq<Message>, front: int, flying: Option<Message>) {
    flying.Some? ==> IsIssued(log, flying.value) && flying.value.id <= front
  }

  // Everything before f has left the hub queue for this connection, except the event in flight.
  ghost predicate SubInv(log: seq<Message>, f: int, flying: Option<Message>, sub: Sub) {
    && Front(f, sub) <= |log|
    && FlyingOk(log, Front(f, sub), flying)
    && WrittenOk(log, sub)
    && QueueOk(log, Front(f, sub), flying, sub)
    && sub.since <= sub.floor && (!sub.foreign && sub.floor > sub.since ==> sub.gapped)
    && (!sub.foreign ==> Covered(log, sub.floor, sub.lastSeq, sub.written, None))
    && (!sub.foreign && sub.state.Live? ==> Covered(log, Max(sub.lastSeq, sub.floor), Front(f, sub), [], flying))
    && (!sub.foreign ==> LossOk(log, Front(f, sub), flying, sub))
  }

  // What has been passed is unwritten exactly if it is lost.
  ghost predicate PassedOk(log: seq<Message>, sub: Sub) {
    forall i :: 0 <= i < |log| && sub.since < i + 1 <= sub.lastSeq && log[i].kind.Broadcast? ==>
      (log[i] in sub.written <==> i + 1 !in sub.lost)
  }

  // What is still to be passed is lost, unless the drainer is about to offer it.
  ghost predicate AheadOk(log: seq<Message>, front: int, flying: Option<Message>, sub: Sub) {
    forall i :: 0 <= i < |log| && sub.lastSeq < i + 1 <= front && log[i].kind.Broadcast? ==>
      i + 1 in sub.lost || flying == Some(log[i])
  }

  ghost predicate LossOk(log: seq<Message>, front: int, flying: Option<Message>, sub: Sub) {
    PassedOk(log, sub) && (sub.state.Live? ==> AheadOk(log, front, flying, sub))
  }

  // A snapshot taken when the log had upTo events, the first `trimmed` of them gone from the buffer.
  datatype Snapshot = Snapshot(gen: nat, since: int, upTo: int, trimmed: int, replay: seq<Message>, gap: bool)

  ghost predicate SnapshotOk(log: seq<Message>, shot: Snapshot) {
    && 0 <= shot.trimmed <= shot.upTo <= |log|
    && (shot.gap <==> shot.trimmed > shot.since)
    && Increasing(shot.replay)
    && (forall m :: m in shot.replay ==> IsIssued(log, m) && shot.since < m.id <= shot.upTo)
    && (forall m :: m in shot.replay && m.kind.Broadcast? ==> m.id > shot.trimmed)
    && Covered(log, Max(shot.since, shot.trimmed), shot.upTo, shot.replay, None)
  }

  // What a snapshot of this very subscription guarantees about the flush to come.
  ghost predicate HoldInv(log: seq<Message>, f: int, flying: Option<Message>, sub: Sub, shot: Snapshot) {
    shot.gen == sub.gen && !sub.foreign ==>
      && shot.since <= sub.lastSeq
      && (sub.state.Replaying? ==> Covered(log, shot.upTo, Front(f, sub), sub.queue, flying))
  }

  // ------------------------------------------------------------------ the flush

  lemma SortedQueue(queue: seq<Message>)
    requires Increasing(queue)
    ensures Sorting.Stable(queue, Earlier) == queue
  {
    Sorting.StableFixesSorted(queue, Earlier);
  }

  // Nothing written so far skips an event above the floor.
  ghost predicate Exact(log: seq<Message>, sub: Sub) {
    WrittenOk(log, sub) && Covered(log, sub.floor, sub.lastSeq, sub.written, None)
  }

  // Up to upTo the snapshot decides: what it should hold above the subscription's position is in its target list.
  lemma ReplayHas(log: seq<Message>, sub: Sub, shot: Snapshot, keep: set<int>, i: nat)
    requires SnapshotOk(log, shot) && shot.since <= sub.lastSeq
    requires i < |log| && log[i].kind.Broadcast? && i + 1 <= shot.upTo
    requires i + 1 > sub.lastSeq && (shot.trimmed > sub.lastSeq ==> i + 1 > shot.trimmed)
    ensures log[i] in Targeted(shot.replay, keep)
  {
    TargetedFacts(shot.replay, keep);
  }

  // An element of an increasing list whose id is reached by a prefix belongs to that prefix.
  lemma InPrefix(a: seq<Message>, j: nat, m: Message, reached: int)
    requires Increasing(a) && j <= |a| && m in a && m.id <= reached
    requires exists x :: x in a[..j] && x.id == reached
    ensures m in a[..j]
  {
    var x :| x in a[..j] && x.id == reached;
    var t :| 0 <= t < j && a[t] == x;
    var u :| 0 <= u < |a| && a[u] == m;
    assert u <= t;
    assert a[..j][u] == m;
  }

  lemma MarkedOk(log: seq<Message>, sub: Sub, gen: nat, trimmed: int, gap: bool)
    requires WrittenOk(log, sub)
    ensures WrittenOk(log, Marked(sub, gen, trimmed, gap))
  {
  }

  // Writing a prefix of the snapshot skips nothing.
  lemma PrefixExact(log: seq<Message>, sub: Sub, shot: Snapshot, keep: set<int>, j: nat)
    requires Issued(log) && Exact(log, sub) && SnapshotOk(log, shot) && shot.since <= sub.lastSeq
    requires j <= |Targeted(shot.replay, keep)|
    ensures var r := DeliveredAll(Marked(sub, shot.gen, shot.trimmed, shot.gap), Targeted(shot.replay, keep)[..j]);
      Exact(log, r) && r.lastSeq <= Max(sub.lastSeq, shot.upTo)
  {
    hide DeliveredAll, Targeted, Delivered, WrittenOk;
    MarkedOk(log, sub, shot.gen, shot.trimmed, shot.gap);
    var base := Marked(sub, shot.gen, shot.trimmed, shot.gap);
    var a := Targeted(shot.replay, keep);
    TargetedFacts(shot.replay, keep);
    PrefixDelivered(log, base, a, j);
    var r := DeliveredAll(base, a[..j]);
    forall i | 0 <= i < |log| && r.floor < i + 1 <= r.lastSeq && log[i].kind.Broadcast? ensures log[i] in r.written {
      if i + 1 > sub.lastSeq { ReplayHas(log, sub, shot, keep, i); }
    }
  }

  // Delivering a prefix of an increasing list writes all its elements up to the position reached.
  lemma PrefixDelivered(log: seq<Message>, sub: Sub, a: seq<Message>, j: nat)
    requires WrittenOk(log, sub) && Increasing(a) && j <= |a|
    requires forall m :: m in a ==> IsIssued(log, m)
    ensures var r := DeliveredAll(sub, a[..j]);
      && WrittenOk(log, r) && SameShape(r, sub) && sub.written <= r.written && sub.lastSeq <= r.lastSeq
      && (r.lastSeq == sub.lastSeq || exists m :: m in a && m.id == r.lastSeq)
      && forall m :: m in a && sub.lastSeq < m.id <= r.lastSeq ==> m in r.written
  {
    var p := a[..j];
    assert forall m :: m in p ==> m in a;
    DeliveredAllFacts(log, sub, p);
    IncreasingDelivered(log, sub, p);
    var r := DeliveredAll(sub, p);
    forall m | m in a && sub.lastSeq < m.id <= r.lastSeq ensures m in r.written {
      InPrefix(a, j, m, r.lastSeq);
    }
  }

  // Then writing a prefix of the queue skips nothing either.
  lemma QueueExact(log: seq<Message>, front: int, flying: Option<Message>, mid: Sub, queue: seq<Message>, upTo: int, n: nat)
    requires Issued(log) && Exact(log, mid) && Increasing(queue) && n <= |queue|
    requires forall m :: m in queue ==> IsIssued(log, m) && m.id <= front && (flying.Some? ==> m.id < flying.value.id)
    requires Covered(log, upTo, front, queue, flying)
    requires forall i :: 0 <= i < |log| && Max(mid.lastSeq, mid.floor) < i + 1 <= upTo ==> !log[i].kind.Broadcast?
    ensures Exact(log, DeliveredAll(mid, queue[..n]))
  {
    PrefixDelivered(log, mid, queue, n);
    var r := DeliveredAll(mid, queue[..n]);
    forall i | 0 <= i < |log| && r.floor < i + 1 <= r.lastSeq && log[i].kind.Broadcast? ensures log[i] in r.written {
      if i + 1 > mid.lastSeq { assert log[i] in queue; }
    }
  }

  lemma ListFacts(log: seq<Message>, shot: Snapshot, keep: set<int>, queue: seq<Message>)
    requires SnapshotOk(log, shot) && Increasing(queue) && forall m :: m in queue ==> IsIssued(log, m)
    ensures forall m :: m in FlushList(shot.replay, keep, queue) ==> IsIssued(log, m)
    ensures forall m :: m in Targeted(shot.replay, keep) || m in queue ==> m in FlushList(shot.replay, keep, queue)
  {
    TargetedFacts(shot.replay, keep);
    SortedQueue(queue);
  }

  // What is known of a subscription when a completion of its own flushes into it.
  ghost predicate FlushReady(log: seq<Message>, front: int, flying: Option<Message>, sub: Sub, shot: Snapshot) {
    && Issued(log) && SnapshotOk(log, shot) && shot.since <= sub.lastSeq && Exact(log, sub)
    && QueueOk(log, front, flying, sub)
    && (sub.state.Replaying? ==> Covered(log, shot.upTo, front, sub.queue, flying))
    && (sub.state.Live? ==> Covered(log, Max(sub.lastSeq, sub.floor), front, [], flying))
    && !sub.state.Pending?
  }

  // The whole snapshot leaves nothing to write up to upTo.
  lemma SnapshotWritten(log: seq<Message>, sub: Sub, shot: Snapshot, keep: set<int>)
    requires Issued(log) && Exact(log, sub) && SnapshotOk(log, shot) && shot.since <= sub.lastSeq
    ensures var mid := DeliveredAll(Marked(sub, shot.gen, shot.trimmed, shot.gap), Targeted(shot.replay, keep));
      Exact(log, mid) &&
      forall i :: 0 <= i < |log| && Max(mid.lastSeq, mid.floor) < i + 1 <= shot.upTo ==> !log[i].kind.Broadcast?
  {
    hide DeliveredAll, Delivered, Targeted;
    MarkedOk(log, sub, shot.gen, shot.trimmed, shot.gap);
    var a := Targeted(shot.replay, keep);
    assert a[..|a|] == a;
    PrefixExact(log, sub, shot, keep, |a|);
    TargetedFacts(shot.replay, keep);
    var base := Marked(sub, shot.gen, shot.trimmed, shot.gap);
    DeliveredAllFacts(log, base, a);
    var mid := DeliveredAll(base, a);
    forall i | 0 <= i < |log| && Max(mid.lastSeq, mid.floor) < i + 1 <= shot.upTo ensures !log[i].kind.Broadcast? {
      if log[i].kind.Broadcast? { ReplayHas(log, sub, shot, keep, i); }
    }
  }

  // However many of the listed events are written, nothing is skipped below the new position.
  lemma FlushExact(log: seq<Message>, front: int, flying: Option<Message>, sub: Sub, shot: Snapshot, keep: set<int>, j: nat)
    requires FlushReady(log, front, flying, sub, shot)
    requires j <= |FlushList(shot.replay, keep, sub.queue)|
    ensures Exact(log, FlushFailed(sub, shot.gen, shot.trimmed, shot.gap, FlushList(shot.replay, keep, sub.queue), j))
  {
    hide WrittenOk, SnapshotOk, Covered, Delivered, DeliveredAll, Targeted, Sorting.Stable, Exact;
    var base := Marked(sub, shot.gen, shot.trimmed, shot.gap);
    var a, ms := Targeted(shot.replay, keep), FlushList(shot.replay, keep, sub.queue);
    SortedQueue(sub.queue);
    if j <= |a| {
      assert ms[..j] == a[..j];
      PrefixExact(log, sub, shot, keep, j);
    } else {
      var n := j - |a|;
      assert ms[..j] == a + sub.queue[..n];
      DeliveredAllConcat(base, a, sub.queue[..n]);
      SnapshotWritten(log, sub, shot, keep);
      QueueExact(log, front, flying, DeliveredAll(base, a), sub.queue, shot.upTo, n);
    }
  }

  // After a complete flush the subscription is up to date.
  lemma FlushCatchesUp(log: seq<Message>, front: int, flying: Option<Message>, sub: Sub, shot: Snapshot, keep: set<int>)
    requires FlushReady(log, front, flying, sub, shot)
    ensures var r := Flushed(sub, shot.gen, shot.trimmed, shot.gap, FlushList(shot.replay, keep, sub.queue));
      Covered(log, Max(r.lastSeq, r.floor), front, [], flying)
  {
    var base := Marked(sub, shot.gen, shot.trimmed, shot.gap);
    var ms := FlushList(shot.replay, keep, sub.queue);
    ListFacts(log, shot, keep, sub.queue);
    forall i | 0 <= i < |log| && Max(sub.lastSeq, base.floor) < i + 1 <= front && log[i].kind.Broadcast? && log[i] !in ms
      ensures flying == Some(log[i])
    {
      UnlistedIsFlying(log, front, flying, sub, shot, keep, i);
    }
    ListCatchesUp(log, front, flying, base, ms);
  }

  lemma UnlistedIsFlying(log: seq<Message>, front: int, flying: Option<Message>, sub: Sub, shot: Snapshot, keep: set<int>, i: nat)
    requires FlushReady(log, front, flying, sub, shot)
    requires i < |log| && i + 1 <= front && log[i].kind.Broadcast? && log[i] !in FlushList(shot.replay, keep, sub.queue)
    requires i + 1 > Max(sub.lastSeq, Marked(sub, shot.gen, shot.trimmed, shot.gap).floor)
    ensures flying == Some(log[i])
  {
    ListFacts(log, shot, keep, sub.queue);
    if i + 1 <= shot.upTo { ReplayHas(log, sub, shot, keep, i); }
  }

  lemma ListCatchesUp(log: seq<Message>, front: int, flying: Option<Message>, sub: Sub, ms: seq<Message>)
    requires Issued(log) && WrittenOk(log, sub) && forall m :: m in ms ==> IsIssued(log, m)
    requires forall i | 0 <= i < |log| && Max(sub.lastSeq, sub.floor) < i + 1 <= front && log[i].kind.Broadcast? && log[i] !in ms ::
               flying == Some(log[i])
    ensures var r := DeliveredAll(sub, ms); Covered(log, Max(r.lastSeq, r.floor), front, [], flying)
  {
    DeliveredAllFacts(log, sub, ms);
  }

  // The parts of the invariant that do not speak of coverage.
  lemma FlushShape(log: seq<Message>, front: int, flying: Option<Message>, sub: Sub, shot: Snapshot, keep: set<int>, j: nat)
    requires WrittenOk(log, sub) && QueueOk(log, front, flying, sub) && SnapshotOk(log, shot)
    requires j <= |FlushList(shot.replay, keep, sub.queue)|
    ensures var r := FlushFailed(sub, shot.gen, shot.trimmed, shot.gap, FlushList(shot.replay, keep, sub.queue), j);
      WrittenOk(log, r) && SameShape(r, Marked(sub, shot.gen, shot.trimmed, shot.gap)) && sub.lastSeq <= r.lastSeq
  {
    hide DeliveredAll, Delivered, Targeted, Sorting.Stable;
    var ms := FlushList(shot.replay, keep, sub.queue);
    ListFacts(log, shot, keep, sub.queue);
    assert forall m :: m in ms[..j] ==> m in ms;
    DeliveredAllFacts(log, Marked(sub, shot.gen, shot.trimmed, shot.gap), ms[..j]);
  }

  lemma {:induction false} WrittenFrom(sub: Sub, ms: seq<Message>)
    ensures forall m :: m in DeliveredAll(sub, ms).written ==> m in sub.written || (m in ms && m.id > sub.lastSeq)
    ensures sub.lastSeq <= DeliveredAll(sub, ms).lastSeq
    ensures forall m :: m in ms ==> m.id <= DeliveredAll(sub, ms).lastSeq
  {
    if ms == [] {
    } else {
      WrittenFrom(sub, ms[..|ms| - 1]);
      assert forall m :: m in ms <==> m in ms[..|ms| - 1] || m == ms[|ms| - 1];
    }
  }

  // Writing two increasing lists in turn writes everything new in the first, and what is newer than it in the second.
  lemma TwoLists(log: seq<Message>, sub: Sub, a: seq<Message>, q: seq<Message>, m: Message)
    requires WrittenOk(log, sub) && Increasing(a) && Increasing(q) && m.id > sub.lastSeq
    requires forall x :: x in a || x in q ==> IsIssued(log, x)
    ensures m in DeliveredAll(DeliveredAll(sub, a), q).written <==> m in a || (m in q && forall x :: x in a ==> x.id < m.id)
  {
    var mid := DeliveredAll(sub, a);
    WrittenFrom(sub, a);
    WrittenFrom(mid, q);
    DeliveredAllFacts(log, sub, a);
    IncreasingDelivered(log, sub, a);
    DeliveredAllFacts(log, mid, q);
    IncreasingDelivered(log, mid, q);
    assert m !in sub.written;
  }

  // ------------------------------------------------------------------ what a flush loses

  // The list reaches id before anything newer.
  predicate Listed(ms: seq<Message>, id: int) {
    exists t :: 0 <= t < |ms| && ms[t].id == id && forall u :: 0 <= u < t ==> ms[u].id < id
  }

  lemma ListedAppend(ms: seq<Message>, m: Message, id: int)
    ensures Listed(ms + [m], id) <==> Listed(ms, id) || (m.id == id && AllBelow(ms, id))
  {
    var all := ms + [m];
    if Listed(ms, id) { ListedExtend(ms, [m], id); }
    if m.id == id && AllBelow(ms, id) {
      assert all[|ms|].id == id && forall u :: 0 <= u < |ms| ==> all[u] == ms[u] && ms[u] in ms;
    }
    if Listed(all, id) {
      var t :| 0 <= t < |all| && all[t].id == id && forall u :: 0 <= u < t ==> all[u].id < id;
      if t < |ms| {
        assert ms[t].id == id && forall u :: 0 <= u < t ==> ms[u] == all[u];
      } else {
        forall x | x in ms ensures x.id < id {
          var u :| 0 <= u < |ms| && ms[u] == x;
          assert all[u] == x;
        }
      }
    }
  }

  ghost predicate AllBelow(ms: seq<Message>, id: int) {
    forall m :: m in ms ==> m.id < id
  }

  lemma ListedExtend(ms: seq<Message>, more: seq<Message>, id: int)
    requires Listed(ms, id)
    ensures Listed(ms + more, id)
  {
    var t :| 0 <= t < |ms| && ms[t].id == id && forall u :: 0 <= u < t ==> ms[u].id < id;
    var all := ms + more;
    assert all[t].id == id && forall u :: 0 <= u < t ==> all[u] == ms[u];
  }

  lemma NotListed(ms: seq<Message>, id: int)
    requires AllBelow(ms, id)
    ensures !Listed(ms, id)
  {
  }

  // A prefix reaches id already, or has not come that far.
  lemma PrefixReaches(ms: seq<Message>, j: nat, id: int)
    requires j <= |ms|
    ensures Listed(ms[..j], id) ==> Listed(ms, id)
    ensures Listed(ms, id) ==> Listed(ms[..j], id) || AllBelow(ms[..j], id)
  {
    var p := ms[..j];
    assert p + ms[j..] == ms;
    if Listed(p, id) { ListedExtend(p, ms[j..], id); }
    if Listed(ms, id) {
      var t :| 0 <= t < |ms| && ms[t].id == id && forall u :: 0 <= u < t ==> ms[u].id < id;
      if t < j {
        assert p[t].id == id && forall u :: 0 <= u < t ==> p[u] == ms[u];
      } else {
        forall m | m in p ensures m.id < id {
          var u :| 0 <= u < j && p[u] == m;
          assert ms[u] == m;
        }
      }
    }
  }

  lemma FirstListed(a: seq<Message>, q: seq<Message>, m: Message)
    requires Increasing(a) && m in a
    ensures Listed(a + q, m.id)
  {
    var t :| 0 <= t < |a| && a[t] == m;
    assert a[t].id == m.id && forall u :: 0 <= u < t ==> a[u].id < m.id;
    ListedExtend(a, q, m.id);
  }

  lemma SecondListed(a: seq<Message>, q: seq<Message>, m: Message)
    requires Increasing(q) && m in q && AllBelow(a, m.id)
    ensures Listed(a + q, m.id)
  {
    var t :| 0 <= t < |q| && q[t] == m;
    var ms := a + q;
    assert ms[|a| + t] == m;
    forall u | 0 <= u < |a| + t ensures ms[u].id < m.id {
      if u < |a| { assert ms[u] in a; } else { assert ms[u] == q[u - |a|]; }
    }
  }

  // Delivering a list writes exactly what it reaches before anything newer, and takes it up again.
  lemma {:induction false} DeliveredListed(log: seq<Message>, sub: Sub, ms: seq<Message>, id: int)
    requires WrittenOk(log, sub) && sub.lastSeq < id && forall m :: m in ms ==> IsIssued(log, m)
    ensures (exists m :: m in DeliveredAll(sub, ms).written && m.id == id) <==> Listed(ms, id)
    ensures id in DeliveredAll(sub, ms).lost <==> id in sub.lost && !Listed(ms, id)
  {
    hide Listed, IsIssued;
    if ms == [] {
      NotListed(ms, id);
    } else {
      var front, last := ms[..|ms| - 1], ms[|ms| - 1];
      DeliveredListed(log, sub, front, id);
      DeliveredAllFacts(log, sub, front);
      assert front + [last] == ms && last in ms;
      ListedAppend(front, last, id);
      var r := DeliveredAll(sub, front);
      assert last.id == id ==> (last.id > r.lastSeq <==> AllBelow(front, id));
      assert forall m :: m in Delivered(r, last).written <==> m in r.written || (m == last && last.id > r.lastSeq);
    }
  }

  lemma {:induction false} PassedStayLost(log: seq<Message>, sub: Sub, ms: seq<Message>, id: int)
    requires WrittenOk(log, sub) && id <= sub.lastSeq && forall m :: m in ms ==> IsIssued(log, m)
    ensures id in DeliveredAll(sub, ms).lost <==> id in sub.lost
    ensures forall m :: m in DeliveredAll(sub, ms).written && m.id == id ==> m in sub.written
  {
    if ms == [] {
    } else {
      PassedStayLost(log, sub, ms[..|ms| - 1], id);
      DeliveredAllFacts(log, sub, ms[..|ms| - 1]);
    }
  }

  // What the snapshot or the queue holds above the position is reached before anything newer, unless it was trimmed.
  lemma HeldIsListed(log: seq<Message>, front: int, flying: Option<Message>, sub: Sub, shot: Snapshot, keep: set<int>, m: Message)
    requires FlushReady(log, front, flying, sub, shot)
    requires m in Targeted(shot.replay, keep) || (m in sub.queue && m.id > shot.upTo)
    ensures Listed(FlushList(shot.replay, keep, sub.queue), m.id)
  {
    hide Listed, Targeted, Sorting.Stable, Exact, Covered;
    var a, q := Targeted(shot.replay, keep), sub.queue;
    TargetedFacts(shot.replay, keep);
    SortedQueue(q);
    if m in a { FirstListed(a, q, m); } else { SecondListed(a, q, m); }
  }

  // A broadcast above the position that the list does not reach is trimmed, or has not left the hub queue or only just.
  lemma UnlistedIsTrimmed(log: seq<Message>, front: int, flying: Option<Message>, sub: Sub, shot: Snapshot, keep: set<int>, i: nat)
    requires FlushReady(log, front, flying, sub, shot) && i < |log| && log[i].kind.Broadcast? && sub.lastSeq < i + 1 <= front
    requires !Listed(FlushList(shot.replay, keep, sub.queue), i + 1) && flying != Some(log[i])
    requires sub.state.Live? ==> AheadOk(log, front, flying, sub)
    ensures i + 1 <= shot.trimmed || i + 1 in sub.lost
  {
    if shot.trimmed < i + 1 {
      if i + 1 <= shot.upTo {
        ReplayHas(log, sub, shot, keep, i);
        HeldIsListed(log, front, flying, sub, shot, keep, log[i]);
      } else if log[i] in sub.queue {
        HeldIsListed(log, front, flying, sub, shot, keep, log[i]);
      }
    }
  }

  lemma UnlistedIsUnheld(log: seq<Message>, front: int, flying: Option<Message>, sub: Sub, shot: Snapshot, keep: set<int>, i: nat)
    requires FlushReady(log, front, flying, sub, shot) && i < |log| && log[i].kind.Broadcast?
    requires shot.trimmed < i + 1 && sub.lastSeq < i + 1 && !Listed(FlushList(shot.replay, keep, sub.queue), i + 1)
    ensures shot.upTo < i + 1 && log[i] !in sub.queue
  {
    hide Listed, FlushList, Exact, Covered;
    if i + 1 <= shot.upTo {
      ReplayHas(log, sub, shot, keep, i);
      HeldIsListed(log, front, flying, sub, shot, keep, log[i]);
    } else if log[i] in sub.queue {
      HeldIsListed(log, front, flying, sub, shot, keep, log[i]);
    }
  }

  // A flush does not move past what its list does not reach and the buffer still held.
  lemma FlushStaysBehind(log: seq<Message>, front: int, flying: Option<Message>, sub: Sub, shot: Snapshot, keep: set<int>, j: nat, i: nat)
    requires FlushReady(log, front, flying, sub, shot) && j <= |FlushList(shot.replay, keep, sub.queue)|
    requires i < |log| && log[i].kind.Broadcast? && shot.trimmed < i + 1 && sub.lastSeq < i + 1
    requires !Listed(FlushList(shot.replay, keep, sub.queue), i + 1)
    ensures i + 1 > FlushFailed(sub, shot.gen, shot.trimmed, shot.gap, FlushList(shot.replay, keep, sub.queue), j).lastSeq
  {
    hide Listed, DeliveredAll, Delivered, Targeted, Sorting.Stable, WrittenOk;
    MarkedOk(log, sub, shot.gen, shot.trimmed, shot.gap);
    var ms := FlushList(shot.replay, keep, sub.queue);
    UnlistedIsUnheld(log, front, flying, sub, shot, keep, i);
    forall m | m in ms ensures m.id <= shot.upTo || m in sub.queue {
      TargetedFacts(shot.replay, keep);
      SortedQueue(sub.queue);
    }
    ListFacts(log, shot, keep, sub.queue);
    assert forall m :: m in ms[..j] ==> m in ms;
    DeliveredAllFacts(log, Marked(sub, shot.gen, shot.trimmed, shot.gap), ms[..j]);
  }

  // What the attempted part of the list reaches and what the whole list reaches agree up to the new position.
  lemma ListedPrefix(log: seq<Message>, sub: Sub, ms: seq<Message>, j: nat, id: int)
    requires WrittenOk(log, sub) && j <= |ms| && forall m :: m in ms ==> IsIssued(log, m)
    requires sub.lastSeq < id <= DeliveredAll(sub, ms[..j]).lastSeq
    ensures Listed(ms[..j], id) <==> Listed(ms, id)
  {
    hide Listed;
    assert forall m :: m in ms[..j] ==> m in ms;
    DeliveredAllFacts(log, sub, ms[..j]);
    PrefixReaches(ms, j, id);
  }

  // However far a flush gets, what it has passed is unwritten exactly if it is lost.
  lemma FlushLoses(log: seq<Message>, front: int, flying: Option<Message>, sub: Sub, shot: Snapshot, keep: set<int>, j: nat)
    requires FlushReady(log, front, flying, sub, shot) && LossOk(log, front, flying, sub)
    requires j <= |FlushList(shot.replay, keep, sub.queue)|
    ensures LossOk(log, front, flying, FlushFailed(sub, shot.gen, shot.trimmed, shot.gap, FlushList(shot.replay, keep, sub.queue), j))
  {
    hide Listed, FlushFailed, FlushList, Covered;
    var r := FlushFailed(sub, shot.gen, shot.trimmed, shot.gap, FlushList(shot.replay, keep, sub.queue), j);
    FlushShape(log, front, flying, sub, shot, keep, j);
    forall i | 0 <= i < |log| && sub.since < i + 1 <= r.lastSeq && log[i].kind.Broadcast?
      ensures log[i] in r.written <==> i + 1 !in r.lost
    {
      FlushLosesOne(log, front, flying, sub, shot, keep, j, i);
    }
    if sub.state.Live? {
      forall i | 0 <= i < |log| && r.lastSeq < i + 1 <= front && log[i].kind.Broadcast? && flying != Some(log[i])
        ensures i + 1 in r.lost
      {
        AheadStaysLost(log, front, flying, sub, shot, keep, j, i);
      }
    }
  }

  lemma AheadStaysLost(log: seq<Message>, front: int, flying: Option<Message>, sub: Sub, shot: Snapshot, keep: set<int>, j: nat, i: nat)
    requires FlushReady(log, front, flying, sub, shot) && j <= |FlushList(shot.replay, keep, sub.queue)|
    requires sub.lastSeq < i + 1 && (i + 1 in sub.lost || i + 1 <= shot.trimmed)
    requires FlushFailed(sub, shot.gen, shot.trimmed, shot.gap, FlushList(shot.replay, keep, sub.queue), j).lastSeq < i + 1
    ensures i + 1 in FlushFailed(sub, shot.gen, shot.trimmed, shot.gap, FlushList(shot.replay, keep, sub.queue), j).lost
  {
    hide Listed, DeliveredAll, Delivered, FlushList, Covered, WrittenOk;
    MarkedOk(log, sub, shot.gen, shot.trimmed, shot.gap);
    var ms := FlushList(shot.replay, keep, sub.queue);
    var base, p := Marked(sub, shot.gen, shot.trimmed, shot.gap), ms[..j];
    ListFacts(log, shot, keep, sub.queue);
    assert forall m :: m in p ==> m in ms;
    DeliveredAllFacts(log, base, p);
    DeliveredListed(log, base, p, i + 1);
    NotListed(p, i + 1);
  }

  lemma FlushLosesOne(log: seq<Message>, front: int, flying: Option<Message>, sub: Sub, shot: Snapshot, keep: set<int>, j: nat, i: nat)
    requires FlushReady(log, front, flying, sub, shot) && PassedOk(log, sub) && j <= |FlushList(shot.replay, keep, sub.queue)|
    requires i < |log| && log[i].kind.Broadcast? && sub.since < i + 1
    requires var r := FlushFailed(sub, shot.gen, shot.trimmed, shot.gap, FlushList(shot.replay, keep, sub.queue), j);
      i + 1 <= r.lastSeq
    ensures var r := FlushFailed(sub, shot.gen, shot.trimmed, shot.gap, FlushList(shot.replay, keep, sub.queue), j);
      log[i] in r.written <==> i + 1 !in r.lost
  {
    hide Listed, DeliveredAll, Delivered, Targeted, FlushList, Covered, SnapshotOk;
    MarkedOk(log, sub, shot.gen, shot.trimmed, shot.gap);
    var ms := FlushList(shot.replay, keep, sub.queue);
    var base, p := Marked(sub, shot.gen, shot.trimmed, shot.gap), ms[..j];
    ListFacts(log, shot, keep, sub.queue);
    assert forall m :: m in p ==> m in ms;
    DeliveredAllFacts(log, base, p);
    if i + 1 <= sub.lastSeq {
      PassedStayLost(log, base, p, i + 1);
    } else {
      DeliveredListed(log, base, p, i + 1);
      ListedPrefix(log, base, ms, j, i + 1);
      if !Listed(ms, i + 1) && shot.trimmed < i + 1 { FlushStaysBehind(log, front, flying, sub, shot, keep, j, i); }
    }
  }

  // After a complete flush everything still to be passed is lost, or about to be offered.
  lemma FlushLosesAhead(log: seq<Message>, front: int, flying: Option<Message>, sub: Sub, shot: Snapshot, keep: set<int>)
    requires FlushReady(log, front, flying, sub, shot) && LossOk(log, front, flying, sub)
    ensures var ms := FlushList(shot.replay, keep, sub.queue);
      AheadOk(log, front, flying, FlushFailed(sub, shot.gen, shot.trimmed, shot.gap, ms, |ms|))
  {
    hide Listed, FlushFailed, Marked, FlushList, Covered;
    var ms := FlushList(shot.replay, keep, sub.queue);
    var r := FlushFailed(sub, shot.gen, shot.trimmed, shot.gap, ms, |ms|);
    FlushShape(log, front, flying, sub, shot, keep, |ms|);
    forall i | 0 <= i < |log| && r.lastSeq < i + 1 <= front && log[i].kind.Broadcast? && flying != Some(log[i])
      ensures i + 1 in r.lost
    {
      NothingBeyond(log, sub, shot, keep);
      NotListed(ms, i + 1);
      UnlistedIsTrimmed(log, front, flying, sub, shot, keep, i);
      AheadStaysLost(log, front, flying, sub, shot, keep, |ms|, i);
    }
  }

  lemma NothingBeyond(log: seq<Message>, sub: Sub, shot: Snapshot, keep: set<int>)
    requires WrittenOk(log, sub) && SnapshotOk(log, shot) && Increasing(sub.queue)
    requires forall m :: m in sub.queue ==> IsIssued(log, m)
    ensures var ms := FlushList(shot.replay, keep, sub.queue);
      forall m :: m in ms ==> m.id <= FlushFailed(sub, shot.gen, shot.trimmed, shot.gap, ms, |ms|).lastSeq
  {
    hide DeliveredAll, FlushList, Covered;
    var ms := FlushList(shot.replay, keep, sub.queue);
    ListFacts(log, shot, keep, sub.queue);
    assert ms[..|ms|] == ms;
    DeliveredAllFacts(log, Marked(sub, shot.gen, shot.trimmed, shot.gap), ms);
  }

  // Which broadcast events a complete flush moves the subscription past without writing them: those already trimmed
  // when the snapshot was taken, unless the queue holds them and the snapshot lists nothing newer.
  lemma FlushWritesExactly(log: seq<Message>, front: int, flying: Option<Message>, sub: Sub, shot: Snapshot, keep: set<int>, i: nat)
    requires FlushReady(log, front, flying, sub, shot) && i < |log| && log[i].kind.Broadcast?
    requires sub.lastSeq < i + 1 <= Flushed(sub, shot.gen, shot.trimmed, shot.gap, FlushList(shot.replay, keep, sub.queue)).lastSeq
    ensures log[i] in Flushed(sub, shot.gen, shot.trimmed, shot.gap, FlushList(shot.replay, keep, sub.queue)).written <==>
      i + 1 > shot.trimmed || (log[i] in sub.queue && forall m :: m in Targeted(shot.replay, keep) ==> m.id < i + 1)
  {
    var base := Marked(sub, shot.gen, shot.trimmed, shot.gap);
    var a := Targeted(shot.replay, keep);
    SortedQueue(sub.queue);
    DeliveredAllConcat(base, a, sub.queue);
    TargetedFacts(shot.replay, keep);
    TwoLists(log, base, a, sub.queue, log[i]);
    if i + 1 <= shot.upTo {
      if i + 1 > shot.trimmed { ReplayHas(log, sub, shot, keep, i); }
    } else {
      BeyondIsQueued(log, front, flying, sub, shot, base, a, i);
    }
  }

  // An event issued after the snapshot is only passed if the queue holds it.
  lemma BeyondIsQueued(log: seq<Message>, front: int, flying: Option<Message>, sub: Sub, shot: Snapshot, base: Sub, a: seq<Message>, i: nat)
    requires FlushReady(log, front, flying, sub, shot) && i < |log| && log[i].kind.Broadcast? && shot.upTo < i + 1
    requires WrittenOk(log, base) && base.lastSeq == sub.lastSeq < i + 1
    requires forall m :: m in a ==> m in shot.replay
    requires i + 1 <= DeliveredAll(DeliveredAll(base, a), sub.queue).lastSeq
    ensures log[i] in sub.queue
  {
    DeliveredAllFacts(log, base, a);
    DeliveredAllFacts(log, DeliveredAll(base, a), sub.queue);
  }

  lemma Reassemble(log: seq<Message>, f: int, flying: Option<Message>, sub: Sub, r: Sub, shot: Snapshot)
    requires SubInv(log, f, flying, sub) && SnapshotOk(log, shot) && HoldInv(log, f, flying, sub, shot)
    requires SameShape(r, Marked(sub, shot.gen, shot.trimmed, shot.gap)) && WrittenOk(log, r) && sub.lastSeq <= r.lastSeq
    requires !r.foreign ==> Covered(log, r.floor, r.lastSeq, r.written, None) && LossOk(log, Front(f, sub), flying, r)
    ensures SubInv(log, f, flying, r)
  {
    hide LossOk;
  }

  // A flush cut short keeps the invariant.
  lemma FlushFailedKeeps(log: seq<Message>, f: int, flying: Option<Message>, sub: Sub, shot: Snapshot, keep: set<int>, j: nat)
    requires Issued(log) && SubInv(log, f, flying, sub) && !sub.state.Pending?
    requires SnapshotOk(log, shot) && HoldInv(log, f, flying, sub, shot)
    requires j <= |FlushList(shot.replay, keep, sub.queue)|
    ensures SubInv(log, f, flying, FlushFailed(sub, shot.gen, shot.trimmed, shot.gap, FlushList(shot.replay, keep, sub.queue), j))
  {
    FlushShape(log, Front(f, sub), flying, sub, shot, keep, j);
    if !sub.foreign && shot.gen == sub.gen {
      FlushExact(log, Front(f, sub), flying, sub, shot, keep, j);
      FlushLoses(log, Front(f, sub), flying, sub, shot, keep, j);
    }
    Reassemble(log, f, flying, sub, FlushFailed(sub, shot.gen, shot.trimmed, shot.gap, FlushList(shot.replay, keep, sub.queue), j), shot);
  }

  lemma TurnLive(log: seq<Message>, f: int, flying: Option<Message>, sub: Sub)
    requires SubInv(log, f, flying, sub)
    requires !sub.foreign ==> Covered(log, Max(sub.lastSeq, sub.floor), Front(f, sub), [], flying)
    requires !sub.foreign ==> PassedOk(log, sub) && AheadOk(log, Front(f, sub), flying, sub)
    ensures SubInv(log, f, flying, sub.(queue := [], state := Live))
  {
  }

  // A complete flush keeps the invariant.
  lemma FlushKeeps(log: seq<Message>, f: int, flying: Option<Message>, sub: Sub, shot: Snapshot, keep: set<int>)
    requires Issued(log) && SubInv(log, f, flying, sub) && !sub.state.Pending?
    requires SnapshotOk(log, shot) && HoldInv(log, f, flying, sub, shot)
    ensures SubInv(log, f, flying, Flushed(sub, shot.gen, shot.trimmed, shot.gap, FlushList(shot.replay, keep, sub.queue)))
  {
    var ms := FlushList(shot.replay, keep, sub.queue);
    assert ms[..|ms|] == ms;
    FlushShape(log, Front(f, sub), flying, sub, shot, keep, |ms|);
    FlushFailedKeeps(log, f, flying, sub, shot, keep, |ms|);
    if !sub.foreign && shot.gen == sub.gen {
      FlushCatchesUp(log, Front(f, sub), flying, sub, shot, keep);
      FlushLosesAhead(log, Front(f, sub), flying, sub, shot, keep);
    }
    TurnLive(log, f, flying, FlushFailed(sub, shot.gen, shot.trimmed, shot.gap, ms, |ms|));
  }

  // ------------------------------------------------------------------ the drainer's section

  lemma OfferKeeps(log: seq<Message>, f: int, sub: Sub, e: Message)
    requires Issued(log) && SubInv(log, f, Some(e), sub)
    ensures SubInv(log, f, None, Offered(sub, e))
  {
    hide AheadOk, Delivered;
    match sub.state
    case Replaying =>
    case Pending =>
    case Live =>
      DeliveredOk(log, sub, e);
      if !sub.foreign {
        OfferExact(log, Front(f, sub), sub, e);
        OfferLoses(log, Front(f, sub), sub, e);
      }
  }

  // What the drainer's event moves a live subscription past is lost.
  lemma OfferLoses(log: seq<Message>, front: int, sub: Sub, e: Message)
    requires Issued(log) && WrittenOk(log, sub) && IsIssued(log, e) && e.id <= front
    requires PassedOk(log, sub) && AheadOk(log, front, Some(e), sub)
    ensures PassedOk(log, Delivered(sub, e)) && AheadOk(log, front, None, Delivered(sub, e))
  {
    var r := Delivered(sub, e);
    if e.id > sub.lastSeq {
      assert r.written == sub.written + [e];
      assert forall m :: m in r.written <==> m in sub.written || m == e;
    }
  }

  lemma OfferExact(log: seq<Message>, front: int, sub: Sub, e: Message)
    requires Issued(log) && Exact(log, sub) && IsIssued(log, e) && e.id <= front
    requires Covered(log, Max(sub.lastSeq, sub.floor), front, [], Some(e))
    ensures var r := Delivered(sub, e);
      Covered(log, r.floor, r.lastSeq, r.written, None) && Covered(log, Max(r.lastSeq, r.floor), front, [], None)
  {
    var r := Delivered(sub, e);
    forall i | 0 <= i < |log| && r.floor < i + 1 <= r.lastSeq && log[i].kind.Broadcast? ensures log[i] in r.written {
      if i + 1 > sub.lastSeq { assert log[i] == e; assert r.written[|r.written| - 1] == e; }
    }
  }

  lemma OfferKeepsHold(log: seq<Message>, f: int, sub: Sub, e: Message, shot: Snapshot)
    requires Issued(log) && HoldInv(log, f, Some(e), sub, shot)
    ensures HoldInv(log, f, None, Offered(sub, e), shot)
  {
  }

  // ------------------------------------------------------------------ other steps

  lemma FreshOk(log: seq<Message>, f: int, flying: Option<Message>, executor: bool, since: int, gen: nat)
    requires f <= |log| && FlyingOk(log, f, flying)
    ensures SubInv(log, f, flying, Fresh(executor, since, gen))
  {
  }

  // An event is issued behind everything that has left the queue.
  lemma GrowKeeps(log: seq<Message>, f: int, flying: Option<Message>, sub: Sub, m: Message)
    requires SubInv(log, f, flying, sub) && f <= |log|
    ensures SubInv(log + [m], f, flying, sub)
  {
    assert forall x :: IsIssued(log, x) ==> IsIssued(log + [m], x);
  }

  lemma GrowKeepsHold(log: seq<Message>, f: int, flying: Option<Message>, sub: Sub, shot: Snapshot, m: Message)
    requires SubInv(log, f, flying, sub) && HoldInv(log, f, flying, sub, shot) && SnapshotOk(log, shot) && f <= |log|
    ensures HoldInv(log + [m], f, flying, sub, shot) && SnapshotOk(log + [m], shot)
  {
    assert forall x :: IsIssued(log, x) ==> IsIssued(log + [m], x);
  }

  // Discarding queued events moves the front, but not for the subscriptions that it dooms.
  lemma DoomKeeps(log: seq<Message>, f: int, f': int, flying: Option<Message>, sub: Sub)
    requires SubInv(log, f, flying, sub)
    ensures SubInv(log, f', flying, Doomed(sub, f))
  {
  }

  lemma DoomKeepsHold(log: seq<Message>, f: int, f': int, flying: Option<Message>, sub: Sub, shot: Snapshot)
    requires HoldInv(log, f, flying, sub, shot)
    ensures HoldInv(log, f', flying, Doomed(sub, f), shot)
  {
  }

  // The next event leaves the queue and is in flight for every subscription.
  lemma PopKeeps(log: seq<Message>, f: int, sub: Sub)
    requires Issued(log) && SubInv(log, f, None, sub) && sub.doomed.None? && 0 <= f < |log|
    ensures SubInv(log, f + 1, Some(log[f]), sub)
  {
  }

  lemma PopKeepsHold(log: seq<Message>, f: int, sub: Sub, shot: Snapshot)
    requires HoldInv(log, f, None, sub, shot) && sub.doomed.None? && 0 <= f < |log|
    ensures HoldInv(log, f + 1, Some(log[f]), sub, shot)
  {
  }

  // An event that is not a broadcast may pass a subscription by.
  lemma PassBy(log: seq<Message>, f: int, sub: Sub, e: Message)
    requires SubInv(log, f, Some(e), sub) && !e.kind.Broadcast?
    ensures SubInv(log, f, None, sub)
  {
  }

  lemma PassByHold(log: seq<Message>, f: int, sub: Sub, e: Message, shot: Snapshot)
    requires HoldInv(log, f, Some(e), sub, shot) && !e.kind.Broadcast?
    ensures HoldInv(log, f, None, sub, shot)
  {
  }
}
