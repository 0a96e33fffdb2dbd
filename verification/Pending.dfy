/**
 * The table of pending requests in hub.go. Every request has a timer; a response, the timer or the sender's own clean-up
 * ends it, each taking the entry out of the table in one section under the hub lock and acting on it afterwards. Any number
 * of requests, timers and responses interleave, and keys may be reused.
 */
module Pending {
  import opened Wrappers

  datatype Timer = Armed | Firing | Ran | Stopped    // Firing: the callback has started and waits for the lock

  // Requests are numbered in the order of setPending, which stands for the identity of the pendingRequest object.
  datatype Request = Request(key: string, timer: Timer)

  datatype Outcome = Resolved | TimedOut | Cleared

  datatype End = End(id: nat, outcome: Outcome)

  // `ended` lists the requests that were taken out of the table, `owed` those of them whose waiter is still to be told,
  // `signals` what waiters have been told. `lost` are requests whose entry was overwritten.
  datatype State = State(table: map<string, nat>, requests: seq<Request>, ended: seq<End>, owed: set<nat>, signals: seq<End>,
                         lost: set<nat>)

  const INITIAL: State := State(map[], [], [], {}, [], {})

  datatype Label =
    | Set(key: string)
    | Fire(id: nat)                                        // the timer's callback starts
    | Expire(id: nat)                                      // its section under the lock
    | Respond(requestID: string, operationID: string)
    | Clear(key: string)
    | Stop(id: nat)                                        // timer.Stop after the section
    | Signal(e: End)                                       // the send on the waiter's channel

  function ResponseKey(requestID: string, operationID: string): string {
    if requestID == "" then operationID else requestID
  }

  predicate Live(s: State, id: nat) {
    id < |s.requests| && s.requests[id].key in s.table && s.table[s.requests[id].key] == id
  }

  ghost predicate HasEnded(ended: seq<End>, id: nat) {
    exists e :: e in ended && e.id == id
  }

  predicate Enabled(s: State, l: Label) {
    match l
    case Set(_) => true
    case Fire(id) => id < |s.requests| && s.requests[id].timer.Armed?
    case Expire(id) => id < |s.requests| && s.requests[id].timer.Firing?
    case Respond(_, _) => true
    case Clear(_) => true
    case Stop(id) => id < |s.requests| && (End(id, Resolved) in s.ended || End(id, Cleared) in s.ended)
    case Signal(e) => e in s.ended && e.id in s.owed
  }

  function Timed(requests: seq<Request>, id: nat, timer: Timer): seq<Request>
    requires id < |requests|
  {
    requests[id := requests[id].(timer := timer)]
  }

  // Takes the entry under `key` out of the table, if there is one.
  function Taken(s: State, key: string, outcome: Outcome): State {
    if key !in s.table then s
    else
      var id := s.table[key];
      s.(table := s.table - {key}, ended := s.ended + [End(id, outcome)],
         owed := if outcome.Cleared? then s.owed else s.owed + {id})
  }

  function Step(s: State, l: Label): State
    requires Enabled(s, l)
  {
    match l
    case Set(key) =>
      s.(table := s.table[key := |s.requests|], requests := s.requests + [Request(key, Armed)],
         lost := if key in s.table then s.lost + {s.table[key]} else s.lost)
    case Fire(id) => s.(requests := Timed(s.requests, id, Firing))
    case Expire(id) =>
      var ran := s.(requests := Timed(s.requests, id, Ran));
      if Live(s, id) then Taken(ran, s.requests[id].key, TimedOut) else ran
    case Respond(requestID, operationID) =>
      var key := ResponseKey(requestID, operationID);
      if key == "" then s else Taken(s, key, Resolved)
    case Clear(key) => Taken(s, key, Cleared)
    case Stop(id) =>
      if s.requests[id].timer.Armed? then s.(requests := Timed(s.requests, id, Stopped)) else s
    case Signal(e) => s.(owed := s.owed - {e.id}, signals := s.signals + [e])
  }

  ghost predicate StepAt(run: seq<State>, i: nat)
    requires i + 1 < |run|
  {
    exists l :: Enabled(run[i], l) && run[i + 1] == Step(run[i], l)
  }

  ghost predicate IsRun(run: seq<State>) {
    && |run| > 0 && run[0] == INITIAL
    && forall i: nat :: i + 1 < |run| ==> StepAt(run, i)
  }

  // ------------------------------------------------------------------ the invariant

  ghost predicate OncePerId(ends: seq<End>) {
    forall i, j :: 0 <= i < j < |ends| ==> ends[i].id != ends[j].id
  }

  ghost predicate TableOk(s: State) {
    forall key :: key in s.table ==>
      var id := s.table[key];
      && id < |s.requests| && s.requests[id].key == key
      && (s.requests[id].timer.Armed? || s.requests[id].timer.Firing?)
      && !HasEnded(s.ended, id) && id !in s.lost
  }

  ghost predicate EndsOk(s: State) {
    && OncePerId(s.ended)
    && forall e :: e in s.ended ==> e.id < |s.requests| && e.id !in s.lost && (e.outcome.TimedOut? ==> s.requests[e.id].timer.Ran?)
  }

  ghost predicate Overwritten(requests: seq<Request>, id: nat) {
    id < |requests| && exists later :: id < later < |requests| && requests[later].key == requests[id].key
  }

  ghost predicate AllAccounted(s: State) {
    && (forall id: nat :: id < |s.requests| ==> Live(s, id) || HasEnded(s.ended, id) || id in s.lost)
    && (forall id :: id in s.lost ==> Overwritten(s.requests, id))
  }

  // A waiter is told once what ended its request, or is still to be told; a cleared request has no waiter.
  ghost predicate SignalsOk(s: State) {
    && OncePerId(s.signals)
    && (forall e :: e in s.signals ==> e in s.ended && e.id !in s.owed && !e.outcome.Cleared?)
    && (forall e :: e in s.ended && !e.outcome.Cleared? ==> e in s.signals || e.id in s.owed)
    && (forall id :: id in s.owed ==> End(id, Resolved) in s.ended || End(id, TimedOut) in s.ended)
  }

  ghost predicate Inv(s: State) {
    TableOk(s) && EndsOk(s) && AllAccounted(s) && SignalsOk(s)
  }

  lemma Appended(ends: seq<End>, e: End)
    ensures forall x :: x in ends + [e] <==> x in ends || x == e
    ensures forall id :: HasEnded(ends + [e], id) <==> HasEnded(ends, id) || id == e.id
    ensures OncePerId(ends) && !HasEnded(ends, e.id) ==> OncePerId(ends + [e])
  {
    assert e in ends + [e];
    assert forall x :: x in ends ==> x in ends + [e];
    assert forall i :: 0 <= i < |ends| ==> ends[i] in ends;
  }

  lemma TakenInv(s: State, key: string, outcome: Outcome)
    requires Inv(s)
    requires key in s.table ==> outcome != TimedOut
    ensures Inv(Taken(s, key, outcome))
  {
    if key in s.table {
      Appended(s.ended, End(s.table[key], outcome));
      hide HasEnded, OncePerId, Overwritten;
      TakenSignals(s, key, outcome);
    }
  }

  lemma TakenSignals(s: State, key: string, outcome: Outcome)
    requires TableOk(s) && SignalsOk(s) && key in s.table
    ensures SignalsOk(Taken(s, key, outcome))
  {
    var id := s.table[key];
    Appended(s.ended, End(id, outcome));
    assert forall e :: e in s.ended ==> e.id != id;
  }

  lemma StillOverwritten(before: seq<Request>, after: seq<Request>)
    requires |before| <= |after| && forall i :: 0 <= i < |before| ==> after[i].key == before[i].key
    ensures forall id: nat :: Overwritten(before, id) ==> Overwritten(after, id)
  {
    forall id: nat | Overwritten(before, id) ensures Overwritten(after, id) {
      var later :| id < later < |before| && before[later].key == before[id].key;
      assert after[later].key == after[id].key;
    }
  }

  lemma ExpireInv(s: State, id: nat)
    requires Inv(s) && Enabled(s, Expire(id))
    ensures Inv(Step(s, Expire(id)))
  {
    var ran := s.(requests := Timed(s.requests, id, Ran));
    StillOverwritten(s.requests, ran.requests);
    assert forall i: nat :: i < |s.requests| ==> (Live(ran, i) <==> Live(s, i));
    if Live(s, id) {
      var key := s.requests[id].key;
      Appended(s.ended, End(id, TimedOut));
      TakenSignals(s, key, TimedOut);
      hide HasEnded, OncePerId, Overwritten;
      assert Taken(ran, key, TimedOut).ended == s.ended + [End(id, TimedOut)];
    }
  }

  lemma SetInv(s: State, key: string)
    requires Inv(s)
    ensures Inv(Step(s, Set(key)))
  {
    var t := Step(s, Set(key));
    StillOverwritten(s.requests, t.requests);
    assert t.requests[|s.requests|].key == key;
    if key in s.table { assert Overwritten(t.requests, s.table[key]); }
    forall id: nat | id < |t.requests| ensures Live(t, id) || HasEnded(t.ended, id) || id in t.lost {
      if id < |s.requests| { assert Live(s, id) || HasEnded(s.ended, id) || id in s.lost; }
    }
  }

  lemma TimerInv(s: State, id: nat, timer: Timer)
    requires Inv(s) && id < |s.requests|
    requires s.requests[id].timer.Armed? && (timer == Firing || (timer == Stopped && HasEnded(s.ended, id)))
    ensures Inv(s.(requests := Timed(s.requests, id, timer)))
  {
    var t := s.(requests := Timed(s.requests, id, timer));
    StillOverwritten(s.requests, t.requests);
    assert forall i: nat :: i < |s.requests| ==> (Live(t, i) <==> Live(s, i));
  }

  lemma SignalInv(s: State, e: End)
    requires Inv(s) && Enabled(s, Signal(e))
    ensures Inv(Step(s, Signal(e)))
  {
    Appended(s.signals, e);
    forall f | f in s.ended && f.id == e.id ensures f == e {
    }
  }

  lemma StepInv(s: State, l: Label)
    requires Inv(s) && Enabled(s, l)
    ensures Inv(Step(s, l))
  {
    match l {
      case Set(key) => SetInv(s, key);
      case Fire(id) => TimerInv(s, id, Firing);
      case Expire(id) => ExpireInv(s, id);
      case Respond(requestID, operationID) =>
        if ResponseKey(requestID, operationID) != "" { TakenInv(s, ResponseKey(requestID, operationID), Resolved); }
      case Clear(key) => TakenInv(s, key, Cleared);
      case Stop(id) =>
        if s.requests[id].timer.Armed? { TimerInv(s, id, Stopped); }
      case Signal(e) => SignalInv(s, e);
    }
  }

  lemma {:induction false} Reachable(run: seq<State>, i: nat)
    requires IsRun(run) && i < |run|
    ensures Inv(run[i])
  {
    if i == 0 {
    } else {
      Reachable(run, i - 1);
      assert StepAt(run, i - 1);
      var l :| Enabled(run[i - 1], l) && run[i] == Step(run[i - 1], l);
      StepInv(run[i - 1], l);
    }
  }

  // ------------------------------------------------------------------ what requests can rely on

  // At every moment each request is exactly one of: in the table, ended by exactly one of response, timeout and clear, or
  // overwritten by a later request under its key. Nothing that ended or was overwritten is in the table.
  lemma OneFate(run: seq<State>, i: nat, id: nat)
    requires IsRun(run) && i < |run| && id < |run[i].requests|
    ensures var s := run[i];
      && (Live(s, id) || HasEnded(s.ended, id) || id in s.lost)
      && !(Live(s, id) && HasEnded(s.ended, id)) && !(Live(s, id) && id in s.lost) && !(HasEnded(s.ended, id) && id in s.lost)
      && (forall a, b :: 0 <= a < |s.ended| && 0 <= b < |s.ended| && s.ended[a].id == id == s.ended[b].id ==> a == b)
      && (id in s.lost ==> Overwritten(s.requests, id))
  {
    Reachable(run, i);
  }

  // A request added by the step has a key that was not in the table.
  predicate FreshStep(s: State, t: State) {
    |t.requests| > |s.requests| ==> t.requests[|s.requests|].key !in s.table
  }

  // The request that is live under a key.
  predicate LiveUnder(s: State, key: string, id: nat) {
    Live(s, id) && s.requests[id].key == key
  }

  // A response ends the live request under its request id if it has one, else under its operation id, and tells its waiter;
  // a response with neither, or for a key with no live request, ends nothing. Every other request is left alone.
  lemma ResponseEndsItsRequest(run: seq<State>, i: nat, requestID: string, operationID: string, id: nat)
    requires IsRun(run) && i < |run| && id < |run[i].requests|
    ensures var s, t := run[i], Step(run[i], Respond(requestID, operationID));
      var hit := if requestID != "" then LiveUnder(s, requestID, id) else operationID != "" && LiveUnder(s, operationID, id);
      && (End(id, Resolved) in t.ended <==> hit || End(id, Resolved) in s.ended)
      && (hit ==> !Live(t, id) && id in t.owed)
      && (!hit ==> (Live(t, id) <==> Live(s, id)))
      && t.requests == s.requests && t.signals == s.signals && t.lost == s.lost
  {
    Reachable(run, i);
    var s, t := run[i], Step(run[i], Respond(requestID, operationID));
    var key := if requestID != "" then requestID else operationID;
    if key != "" && key in s.table { Appended(s.ended, End(s.table[key], Resolved)); }
  }

  // A request is live from the moment it is set, and takes the place of a live one under its key.
  lemma SetIsLive(run: seq<State>, i: nat, key: string)
    requires IsRun(run) && i < |run|
    ensures var s, t := run[i], Step(run[i], Set(key));
      && t.requests == s.requests + [Request(key, Armed)] && LiveUnder(t, key, |s.requests|)
      && forall id: nat :: id < |s.requests| ==> (Live(t, id) <==> Live(s, id) && s.requests[id].key != key)
  {
    Reachable(run, i);
  }

  // Clearing a key ends the live request under it, whose waiter is told nothing.
  lemma ClearEndsItsRequest(run: seq<State>, i: nat, key: string, id: nat)
    requires IsRun(run) && i < |run| && id < |run[i].requests|
    ensures var s, t := run[i], Step(run[i], Clear(key));
      && (End(id, Cleared) in t.ended <==> LiveUnder(s, key, id) || End(id, Cleared) in s.ended)
      && (Live(t, id) <==> Live(s, id) && s.requests[id].key != key) && t.owed == s.owed
  {
    Reachable(run, i);
    var s := run[i];
    if key in s.table { Appended(s.ended, End(s.table[key], Cleared)); }
  }

  // No key is reused while its request is live.
  ghost predicate FreshKeys(run: seq<State>) {
    forall i: nat :: i + 1 < |run| ==> FreshStep(run[i], run[i + 1])
  }

  // Then every request that has left the table was ended exactly once.
  lemma {:induction false} ExactlyOnce(run: seq<State>, i: nat)
    requires IsRun(run) && FreshKeys(run) && i < |run|
    ensures run[i].lost == {}
    ensures forall id: nat :: id < |run[i].requests| ==> (HasEnded(run[i].ended, id) <==> !Live(run[i], id))
  {
    Reachable(run, i);
    if i == 0 {
    } else {
      ExactlyOnce(run, i - 1);
      assert StepAt(run, i - 1);
      var s := run[i - 1];
      var l :| Enabled(s, l) && run[i] == Step(s, l);
      assert l.Set? ==> run[i].requests[|s.requests|].key == l.key;
    }
  }

  // Even when keys are reused, a timer ends at most its own request and leaves every other entry alone.
  lemma TimersExpireTheirOwn(run: seq<State>, i: nat, id: nat)
    requires IsRun(run) && i + 1 < |run| && Enabled(run[i], Expire(id)) && run[i + 1] == Step(run[i], Expire(id))
    ensures forall other: nat :: other != id ==> (Live(run[i], other) <==> Live(run[i + 1], other))
    ensures !Live(run[i + 1], id)
    ensures run[i + 1].ended == run[i].ended + if Live(run[i], id) then [End(id, TimedOut)] else []
  {
    Reachable(run, i);
  }

  // A request is never timed out without its own timer having run.
  lemma TimeoutsAreReal(run: seq<State>, i: nat, id: nat)
    requires IsRun(run) && i < |run| && End(id, TimedOut) in run[i].ended
    ensures id < |run[i].requests| && run[i].requests[id].timer.Ran?
  {
    Reachable(run, i);
  }

  // No channel is sent to twice, so a send on a channel of capacity one never blocks; what a waiter is told is what ended
  // its request; and a waiter that has been told nothing is owed a signal, has its timer ahead of it, has given up by
  // itself, or was overwritten.
  lemma WaitersAreServed(run: seq<State>, i: nat, id: nat)
    requires IsRun(run) && i < |run| && id < |run[i].requests|
    ensures var s := run[i];
      && (forall a, b :: 0 <= a < |s.signals| && 0 <= b < |s.signals| && s.signals[a].id == id == s.signals[b].id ==> a == b)
      && (forall e :: e in s.signals && e.id == id ==> e in s.ended && !e.outcome.Cleared?)
      && (HasEnded(s.signals, id) || id in s.owed || End(id, Cleared) in s.ended || id in s.lost
          || (Live(s, id) && (s.requests[id].timer.Armed? || s.requests[id].timer.Firing?)))
  {
    Reachable(run, i);
    var s := run[i];
    if HasEnded(s.ended, id) {
      var e :| e in s.ended && e.id == id;
      if e.outcome.Cleared? { assert e == End(id, Cleared); }
    }
  }

  // An overwritten request is never ended: nobody will ever tell its waiter anything.
  lemma {:induction false} OverwrittenIsForgotten(run: seq<State>, i: nat, j: nat, id: nat)
    requires IsRun(run) && i <= j < |run| && id in run[i].lost
    ensures id in run[j].lost && !HasEnded(run[j].ended, id) && !HasEnded(run[j].signals, id)
    decreases j
  {
    Reachable(run, j);
    if i == j {
    } else {
      OverwrittenIsForgotten(run, i, j - 1, id);
      assert StepAt(run, j - 1);
    }
  }

  // ------------------------------------------------------------------ the table object

  class Requests {
    var pending: map<string, nat>
    var requests: seq<Request>
    ghost var ended: seq<End>
    ghost var owed: set<nat>
    ghost var signals: seq<End>
    ghost var lost: set<nat>

    ghost function Snapshot(): State
      reads this
    {
      State(pending, requests, ended, owed, signals, lost)
    }

    constructor ()
      ensures Snapshot() == INITIAL
    {
      pending, requests, ended, owed, signals, lost := map[], [], [], {}, [], {};
    }

    method SetPending(key: string) returns (id: nat)
      modifies this
      ensures id == old(|requests|) && Snapshot() == Step(old(Snapshot()), Set(key))
    {
      id := |requests|;
      requests := requests + [Request(key, Armed)];
      if key in pending { lost := lost + {pending[key]}; }
      pending := pending[key := id];
    }

    // The timer's callback: only the request that is still the one in the table times out.
    method Expire(id: nat) returns (timedOut: bool)
      requires Enabled(Snapshot(), Label.Expire(id))
      modifies this
      ensures timedOut == Live(old(Snapshot()), id) && Snapshot() == Step(old(Snapshot()), Label.Expire(id))
    {
      var key := requests[id].key;
      requests := Timed(requests, id, Ran);
      timedOut := key in pending && pending[key] == id;
      if !timedOut { return; }
      pending := pending - {key};
      ended, owed := ended + [End(id, TimedOut)], owed + {id};
    }

    method ClearPending(key: string) returns (cleared: Option<nat>)
      modifies this
      ensures cleared == (if key in old(pending) then Some(old(pending)[key]) else None)
      ensures Snapshot() == Step(old(Snapshot()), Clear(key))
    {
      if key !in pending { return None; }
      cleared := Some(pending[key]);
      pending := pending - {key};
      ended := ended + [End(cleared.value, Cleared)];
    }

    method ResolvePending(requestID: string, operationID: string) returns (resolved: Option<nat>)
      modifies this
      ensures var key := ResponseKey(requestID, operationID);
        resolved == if key != "" && key in old(pending) then Some(old(pending)[key]) else None
      ensures Snapshot() == Step(old(Snapshot()), Respond(requestID, operationID))
    {
      var key := requestID;
      if key == "" { key := operationID; }
      if key == "" { return None; }
      if key !in pending { return None; }
      resolved := Some(pending[key]);
      pending := pending - {key};
      ended, owed := ended + [End(resolved.value, Resolved)], owed + {resolved.value};
    }
  }
}
