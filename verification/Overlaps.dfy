/**
 * Why the guarantees ask a client not to subscribe while a completion of its connection is running: here one does, and the
 * completion of its earlier subscription flushes into the new one, past an event that the new one asked for.
 */
module Overlaps {
  import opened Wrappers
  import opened EventLog
  import opened Subscription
  import opened Delivery
  import opened GapReports

  const ONE: Message := Message(1, Broadcast, "")
  const TWO: Message := Message(2, Broadcast, "")

  const ISSUED_ONE: Op := Op([ONE], [ONE], map[], [ONE], true, false, Unset, "", multiset{})
  const ISSUED_TWO: Op := Op([ONE, TWO], [ONE, TWO], map[], [ONE, TWO], true, false, Unset, "", multiset{})
  const OWNED_TWO: Op := ISSUED_TWO.(owner := "u", status := Running)

  // The client has seen the first event and asks for what follows it; later it asks for everything.
  const EARLIER: Sub := Fresh(false, 1, 0)
  const LATER: Sub := Fresh(false, 0, 1)

  const SHOT: Snapshot := Snapshot(0, 1, 2, 0, [TWO], false)

  function Client(sub: Sub, runs: map<nat, Phase>, nextGen: nat): map<ConnId, Conn> {
    map[0 := Conn("u", "", true, false, Some(sub), runs, nextGen)]
  }

  function Idle(sub: Sub, runs: map<nat, Phase>): State {
    State("u", NEW_OP, [], Client(sub, runs, 1), map[], NO_ROUTING)
  }

  lemma Parks() returns (run: seq<State>)
    ensures IsRun(run) && Last(run) == Idle(EARLIER, map[0 := Park])
  {
    var s0 := State("u", NEW_OP, [], map[], map[], NO_ROUTING);
    run := To([s0], Connect(0, "u", ""), s0.(conns := map[0 := Conn("u", "", true, false, None, map[], 0)]));
    var r: map<nat, Phase> := map[][0 := Start];
    run := To(run, Subscribe(0, 1, false), Idle(EARLIER, r));
    r := r[0 := Park];
    run := To(run, Complete(0, 0, 0, {}, None), Idle(EARLIER, r));
    assert r == map[0 := Park];
  }

  // It subscribes before init, and its own completion ends with the subscription parked.
  lemma ParksAndLeaves() returns (run: seq<State>)
    ensures IsRun(run) && Last(run) == Idle(Parked(EARLIER), map[])
  {
    run := Parks();
    var r: map<nat, Phase> := map[0 := Park];
    r := r[0 := Recheck];
    run := To(run, Complete(0, 0, 0, {}, None), Idle(Parked(EARLIER), r));
    r := r[0 := Tell];
    run := To(run, Complete(0, 0, 0, {}, None), Idle(Parked(EARLIER), r));
    assert r - {0} == map[];
    run := To(run, Complete(0, 0, 0, {}, None), Idle(Parked(EARLIER), map[]));
  }

  function Going(sub: Sub, runs: map<nat, Phase>, nextGen: nat, pass: Pass): State {
    State("u", OWNED_TWO, [Loop], Client(sub, runs, nextGen), map[0 := pass], NO_ROUTING)
  }

  // Two events are issued, and init names the owner.
  lemma Starts() returns (run: seq<State>)
    ensures IsRun(run) && Last(run) == Going(Parked(EARLIER), map[], 1, Announce)
  {
    run := ParksAndLeaves();
    var parked := Client(Parked(EARLIER), map[], 1);
    assert Apply(NEW_OP, Push(Broadcast, "")) == ISSUED_ONE;
    run := To(run, Issue(Push(Broadcast, "")), State("u", ISSUED_ONE, [Loop], parked, map[], NO_ROUTING));
    assert Apply(ISSUED_ONE, Push(Broadcast, "")) == ISSUED_TWO;
    run := To(run, Issue(Push(Broadcast, "")), State("u", ISSUED_TWO, [Loop], parked, map[], NO_ROUTING));
    run := To(run, Initialise(0), Going(Parked(EARLIER), map[], 1, Announce));
  }

  // Its lifecycle pass takes the subscription back.
  lemma WakesUp() returns (run: seq<State>)
    ensures IsRun(run) && Last(run) == Going(EARLIER, map[][1 := Start], 1, Visiting({}))
  {
    run := Starts();
    run := To(run, Visit(0, 0, 0, true), Going(Parked(EARLIER), map[], 1, Listing("u")));
    assert RegisteredOf(Last(run), "u") == {0};
    run := To(run, Visit(0, 0, 0, true), Going(Parked(EARLIER), map[], 1, Visiting({0})));
    assert {0} - {0} == {};
    run := To(run, Visit(0, 0, 0, true), Going(Parked(EARLIER), map[], 1, Waking({}, 0)));
    run := To(run, Visit(0, 0, 1, true), Going(EARLIER, map[][1 := Start], 1, Visiting({})));
  }

  // The completion that the pass started takes its snapshot.
  lemma TakesSnapshot() returns (run: seq<State>)
    ensures IsRun(run) && Last(run) == Going(EARLIER, map[1 := Flush(SHOT)], 1, Visiting({}))
  {
    run := WakesUp();
    var r: map<nat, Phase> := map[][1 := Start];
    r := r[1 := ReadSince];
    run := To(run, Complete(0, 1, 0, {}, None), Going(EARLIER, r, 1, Visiting({})));
    r := r[1 := Collect(0, 1)];
    run := To(run, Complete(0, 1, 0, {}, None), Going(EARLIER, r, 1, Visiting({})));
    assert Pruned(OWNED_TWO, 0) == OWNED_TWO;
    ShotIsTwo();
    r := r[1 := Flush(SHOT)];
    run := To(run, Complete(0, 1, 0, {}, None), Going(EARLIER, r, 1, Visiting({})));
    assert r == map[1 := Flush(SHOT)];
  }

  lemma ShotIsTwo()
    ensures TakeShot(OWNED_TWO, 0, 1) == SHOT
  {
    assert [ONE, TWO][..1] == [ONE] && [ONE][..0] == [];
    assert Replay([ONE], 0, map[], 1) == [];
    assert Replay([ONE, TWO], 0, map[], 1) == [TWO];
  }

  lemma ListsTwo()
    ensures FlushList([TWO], {}, []) == [TWO]
  {
    assert [TWO][..0] == [];
    assert Targeted([TWO], {}) == [TWO];
  }

  lemma DeliversTwo(base: Sub)
    ensures DeliveredAll(base, [TWO]) == Delivered(base, TWO)
  {
    assert [TWO][..0] == [];
    assert DeliveredAll(base, []) == base;
  }

  lemma FlushesTwo()
    ensures var r := Flushed(LATER, 0, 0, false, FlushList([TWO], {}, []));
      r.foreign && !r.gapped && r.gen == 1 && r.since == 0 && r.lastSeq == 2 && r.written == [TWO] && r.state.Live?
  {
    hide FlushList, DeliveredAll;
    ListsTwo();
    DeliversTwo(Marked(LATER, 0, 0, false));
  }

  // The client subscribes again before that snapshot is flushed. The flush goes to the new subscription: no gap is
  // reported to it, and it is past the first event, which it asked for and never gets.
  lemma OlderCompletionSkips() returns (run: seq<State>)
    ensures IsRun(run) && Subscribed(Last(run), 0) && !Last(run).conns[0].closed
    ensures var sub := Last(run).conns[0].sub.value;
      && sub.gen == 1 && sub.foreign && !sub.gapped && sub.state.Live?
      && ONE in Last(run).op.log && sub.since < ONE.id <= sub.lastSeq && ONE !in sub.written
  {
    run := TakesSnapshot();
    var r: map<nat, Phase> := map[1 := Flush(SHOT)];
    r := r[0 := Start];
    run := To(run, Subscribe(0, 0, false), Going(LATER, r, 2, Visiting({})));
    FlushesTwo();
    run := Extend(run, Complete(0, 1, 0, {}, None));
    assert Last(run).conns[0] == FlushConn(Going(LATER, r, 2, Visiting({})).conns[0], 1, SHOT, {}, None);
  }
}
