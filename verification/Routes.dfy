/**
 * Who is sent what: the drainer's choice of recipients for every kind of event, by what it found of each connection when it
 * looked at it, and what each of them gets.
 */
module Routes {
  import opened Wrappers
  import opened EventLog
  import opened Subscription
  import opened Delivery
  import opened Continuity
  import opened DeliveryInvariant
  import opened DeliverySteps
  import opened DeliveryTheorems
  import opened Losses

  // Some connection looked at is an executor; is of the client the attempt prefers.
  ghost predicate AnyExecutor(seen: map<ConnId, Seen>) {
    exists c :: c in seen && seen[c].executor
  }

  ghost predicate AnyPreferred(seen: map<ConnId, Seen>, preferred: string) {
    preferred != "" && exists c :: c in seen && seen[c].clientId == preferred
  }

  // A broadcast goes to every subscriber; a tool execution to the executors if there are any, else to all; an LLM execution
  // to the connections of the preferred client if there are any, else like a tool execution.
  ghost predicate Recipient(kind: Kind, seen: map<ConnId, Seen>, c: ConnId) {
    c in seen &&
    match kind
    case Broadcast => true
    case ToolExecute => AnyExecutor(seen) ==> seen[c].executor
    case LlmExecute(_, preferred) =>
      if AnyPreferred(seen, preferred) then seen[c].clientId == preferred
      else AnyExecutor(seen) ==> seen[c].executor
  }

  // ------------------------------------------------------------------ the invariant

  predicate Prefers(kind: Kind, found: Seen) {
    kind.LlmExecute? && kind.preferred != "" && found.clientId == kind.preferred
  }

  ghost predicate Routed(r: Routing, d: Drainer) {
    match d
    case ReadOwner(_) => r == NO_ROUTING
    case List(_, _) => r == NO_ROUTING
    case Observe(e, todo, all, executors, preferred) =>
      && r.handled == {} && r.seen.Keys <= r.visited && todo !! r.visited
      && all == r.seen.Keys
      && (forall c :: c in executors <==> c in r.seen && r.seen[c].executor)
      && (forall c :: c in preferred <==> c in r.seen && Prefers(e.kind, r.seen[c]))
    case Deliver(e, todo) => todo !! r.handled && forall c :: c in todo || c in r.handled <==> Recipient(e.kind, r.seen, c)
    case Failed(e, todo, x) =>
      && todo !! r.handled && x in r.handled
      && forall c :: c in todo || c in r.handled <==> Recipient(e.kind, r.seen, c)
    case Report(e) => forall c :: c in r.handled <==> Recipient(e.kind, r.seen, c)
    case _ => true
  }

  ghost predicate RoutedState(s: State) {
    s.drainers != [] ==> Routed(s.routing, s.drainers[0])
  }

  lemma ChosenAreRecipients(r: Routing, e: Message, all: set<ConnId>, executors: set<ConnId>, preferred: set<ConnId>)
    requires Routed(r, Observe(e, {}, all, executors, preferred))
    ensures Routed(r, Deliver(e, Chosen(e, all, executors, preferred)))
  {
    assert executors != {} <==> AnyExecutor(r.seen) by {
      if executors != {} { var c :| c in executors; }
    }
    if e.kind.LlmExecute? {
      assert preferred != {} <==> AnyPreferred(r.seen, e.kind.preferred) by {
        if preferred != {} { var c :| c in preferred; }
      }
    }
  }

  lemma LookRouted(s: State, c: ConnId, e: Message, todo: set<ConnId>, all: set<ConnId>, executors: set<ConnId>,
                   preferred: set<ConnId>)
    requires Routed(s.routing, Observe(e, todo, all, executors, preferred)) && c in todo
    ensures Routed(LookedAt(s, c), ObserveOne(s, c, e, todo, all, executors, preferred))
  {
  }

  lemma DrainRouted(s: State, d: nat, c: ConnId, ok: bool)
    requires Base(s) && DrainEnabled(s, d, c, ok) && RoutedState(s)
    ensures RoutedState(DrainStep(s, d, c, ok))
  {
    OnlyDrainer(s, d, c, ok);
    hide Base, LookedAt, ObserveOne, Chosen, CloseIn, RegisteredOf, Registered, Recipient;
    match s.drainers[0]
    case Observe(e, todo, all, executors, preferred) =>
      if todo == {} {
        ChosenAreRecipients(s.routing, e, all, executors, preferred);
      } else {
        LookRouted(s, c, e, todo, all, executors, preferred);
      }
    case Deliver(e, todo) => if todo != {} { OfferRouted(s, c, ok, e, todo); }
    case ClosingOne(_, x) =>
    case Failed(_, _, x) =>
    case _ =>
  }

  lemma OfferRouted(s: State, c: ConnId, ok: bool, e: Message, todo: set<ConnId>)
    requires s.drainers == [Deliver(e, todo)] && c in todo && Routed(s.routing, s.drainers[0])
    ensures RoutedState(DeliverOne(s, 0, c, ok, e, todo).(routing := s.routing.(handled := s.routing.handled + {c})))
  {
    hide Recipient, Offered;
  }

  lemma StepRouted(s: State, l: Label)
    requires Base(s) && Enabled(s, l) && RoutedState(s)
    ensures RoutedState(Step(s, l))
  {
    hide Routed, DrainStep, CompleteConn, Apply;
    if l.Drain? {
      DrainRouted(s, l.d, l.c, l.ok);
    } else if l.Issue? {
      IssueRouted(s, l.cmd);
    }
  }

  lemma IssueRouted(s: State, cmd: Command)
    requires Base(s) && RoutedState(s)
    ensures RoutedState(IssueStep(s, cmd))
  {
    hide Apply;
  }

  lemma {:induction false} AlwaysRouted(run: seq<State>, i: nat)
    requires IsRun(run) && i < |run|
    ensures RoutedState(run[i])
  {
    if i == 0 {
    } else {
      var before := i - 1;
      AlwaysRouted(run, before);
      Reachable(run, before);
      assert StepAt(run, before);
      var l :| Enabled(run[before], l) && run[before + 1] == Step(run[before], l);
      StepRouted(run[before], l);
    }
  }

  // ------------------------------------------------------------------ who is sent what

  // When the drainer is done with an event, it has taken it to exactly the right connections.
  lemma RightRecipients(run: seq<State>, i: nat, e: Message, c: ConnId)
    requires IsRun(run) && i < |run| && run[i].drainers == [Report(e)]
    ensures c in run[i].routing.handled <==> Recipient(e.kind, run[i].routing.seen, c)
  {
    AlwaysRouted(run, i);
  }

  // What taking event e to a connection does to its subscription.
  ghost predicate Takes(sub: Sub, sub': Sub, e: Message, ok: bool) {
    match sub.state
    case Replaying => sub'.queue == sub.queue + [e] && sub'.written == sub.written
    case Pending => sub'.queue == sub.queue && sub'.written == sub.written
    case Live =>
      sub'.queue == sub.queue && sub'.written == if e.id > sub.lastSeq && ok then sub.written + [e] else sub.written
  }

  // Each connection that it takes the event to is a right one, and gets it: in the queue while it replays, on the socket
  // when it is live, unless the write fails, on which it is closed next, or it has been sent something newer.
  lemma RecipientGets(run: seq<State>, i: nat, e: Message, todo: set<ConnId>, c: ConnId, ok: bool)
    requires IsRun(run) && i < |run| && run[i].drainers == [Deliver(e, todo)] && c in todo
    ensures Enabled(run[i], Drain(0, c, ok)) && Recipient(e.kind, run[i].routing.seen, c)
    ensures var t := Step(run[i], Drain(0, c, ok));
      && t.routing.handled == run[i].routing.handled + {c} && t.routing.seen == run[i].routing.seen
      && (Subscribed(run[i], c) ==> Subscribed(t, c) && Takes(run[i].conns[c].sub.value, t.conns[c].sub.value, e, ok))
      && (Subscribed(run[i], c) && run[i].conns[c].sub.value.state.Live? && e.id > run[i].conns[c].sub.value.lastSeq && !ok ==>
            t.drainers == [Failed(e, todo - {c}, c)])
  {
    AlwaysRouted(run, i);
    hide Recipient;
  }

  // And nothing else that the drainer does puts anything into a queue or on a socket.
  lemma NobodyElseGets(run: seq<State>, i: nat, d: nat, x: ConnId, ok: bool, c: ConnId)
    requires IsRun(run) && i < |run| && Enabled(run[i], Drain(d, x, ok))
    requires Subscribed(run[i], c) && Subscribed(Step(run[i], Drain(d, x, ok)), c)
    ensures var sub, sub' := run[i].conns[c].sub.value, Step(run[i], Drain(d, x, ok)).conns[c].sub.value;
      sub'.queue != sub.queue || sub'.written != sub.written ==>
        && x == c && run[i].drainers[0].Deliver? && c in run[i].drainers[0].todo
        && Recipient(run[i].drainers[0].e.kind, run[i].routing.seen, c)
        && Takes(sub, sub', run[i].drainers[0].e, ok)
  {
    Reachable(run, i);
    AlwaysRouted(run, i);
    OnlyDrainer(run[i], d, x, ok);
    hide Recipient, Takes, DrainStep;
    if run[i].drainers[0].Deliver? && x in run[i].drainers[0].todo && x == c {
      RecipientGets(run, i, run[i].drainers[0].e, run[i].drainers[0].todo, c, ok);
    } else {
      OthersKeepTheirs(run[i], x, ok, c);
    }
  }

  lemma OthersKeepTheirs(s: State, x: ConnId, ok: bool, c: ConnId)
    requires Base(s) && DrainEnabled(s, 0, x, ok) && Subscribed(s, c) && Subscribed(DrainStep(s, 0, x, ok), c)
    requires !(s.drainers[0].Deliver? && x in s.drainers[0].todo && x == c)
    ensures DrainStep(s, 0, x, ok).conns[c].sub.value.queue == s.conns[c].sub.value.queue
    ensures DrainStep(s, 0, x, ok).conns[c].sub.value.written == s.conns[c].sub.value.written
  {
    hide Base, ObserveOne, Chosen, LookedAt, RegisteredOf, Registered, LoopTop, DeliverOne, CloseIn, Undisturbed;
    match s.drainers[0]
    case Loop => LoopContinues(s, 0);
    case Deliver(e, todo) => OfferContinues(s, 0, x, ok, e, todo);
    case ClosingOne(_, y) => CloseContinues(s, y);
    case Failed(_, _, y) => CloseContinues(s, y);
    case _ =>
  }

  // ------------------------------------------------------------------ what was found is true

  // The drainer looks at every registered connection of the owner it has read, and finds those that are subscribed and open
  // when it looks, with the executor flag of their subscription and their client id.
  lemma LooksAtAll(run: seq<State>, i: nat, c: ConnId, ok: bool)
    requires IsRun(run) && i < |run| && |run[i].drainers| == 1 && Enabled(run[i], Drain(0, c, ok))
    ensures run[i].drainers[0].List? ==>
      Step(run[i], Drain(0, c, ok)).drainers[0].Observe?
      && forall x :: x in Step(run[i], Drain(0, c, ok)).drainers[0].todo <==>
           x in run[i].conns && run[i].conns[x].registered && run[i].conns[x].user == run[i].drainers[0].owner
    ensures run[i].drainers[0].Observe? && run[i].drainers[0].todo != {} ==>
      var s, t := run[i], Step(run[i], Drain(0, c, ok));
      var found := Subscribed(s, c) && !s.conns[c].closed;
      && t.drainers[0].Observe? && t.drainers[0].todo == s.drainers[0].todo - {c}
      && t.routing.visited == s.routing.visited + {c}
      && (c in t.routing.seen <==> found)
      && (found ==> t.routing.seen[c] == Seen(s.conns[c].sub.value.executor, s.conns[c].clientId))
      && (forall x :: x != c ==> (x in t.routing.seen <==> x in s.routing.seen))
      && (forall x :: x != c && x in s.routing.seen ==> t.routing.seen[x] == s.routing.seen[x])
  {
    AlwaysRouted(run, i);
  }

  predicate Handling(d: Drainer) {
    d.Observe? || d.Deliver? || d.Failed? || d.Report?
  }

  predicate HandlingAt(s: State) {
    |s.drainers| == 1 && Handling(s.drainers[0])
  }

  // At step j the drainer looks at connection c on behalf of event e, and finds what `found` says.
  ghost predicate FindsAt(s: State, e: Message, c: ConnId, found: Seen) {
    && |s.drainers| == 1 && s.drainers[0].Observe? && s.drainers[0].e == e && c in s.drainers[0].todo
    && Subscribed(s, c) && !s.conns[c].closed
    && found.executor == s.conns[c].sub.value.executor && found.clientId == s.conns[c].clientId
  }

  // Whatever is on record for the event being delivered was true of the connection when the drainer looked at it.
  lemma {:induction false} SeenIsTrue(run: seq<State>, i: nat, c: ConnId) returns (j: nat)
    requires IsRun(run) && i < |run| && HandlingAt(run[i]) && c in run[i].routing.seen
    ensures j < i && FindsAt(run[j], run[i].drainers[0].e, c, run[i].routing.seen[c])
    ensures forall n :: j < n <= i ==> HandlingAt(run[n]) && run[n].drainers[0].e == run[i].drainers[0].e
  {
    hide Inv, Base, RoutedState, Step, Enabled, HandlingAt;
    assert i > 0;
    var before := i - 1;
    Reachable(run, before);
    AlwaysRouted(run, before);
    assert StepAt(run, before);
    var l :| Enabled(run[before], l) && run[before + 1] == Step(run[before], l);
    HandlingStep(run[before], l, c);
    if HandlingAt(run[before]) && c in run[before].routing.seen {
      j := SeenIsTrue(run, before, c);
    } else {
      j := before;
    }
  }

  lemma HandlingStep(s: State, l: Label, c: ConnId)
    requires Base(s) && RoutedState(s) && Enabled(s, l) && HandlingAt(Step(s, l)) && c in Step(s, l).routing.seen
    ensures HandlingAt(s) && c in s.routing.seen ==>
      s.drainers[0].e == Step(s, l).drainers[0].e && s.routing.seen[c] == Step(s, l).routing.seen[c]
    ensures !(HandlingAt(s) && c in s.routing.seen) ==> FindsAt(s, Step(s, l).drainers[0].e, c, Step(s, l).routing.seen[c])
  {
    hide DrainStep, CompleteConn, Apply;
    if l.Drain? {
      OnlyDrainer(s, l.d, l.c, l.ok);
      HandlingDrain(s, l.c, l.ok, c);
    } else if l.Issue? {
      HandlingIssue(s, l.cmd);
    }
  }

  lemma HandlingIssue(s: State, cmd: Command)
    requires Base(s) && HandlingAt(IssueStep(s, cmd))
    ensures IssueStep(s, cmd).drainers == s.drainers && IssueStep(s, cmd).routing == s.routing
  {
    hide Apply;
  }

  lemma HandlingDrain(s: State, x: ConnId, ok: bool, c: ConnId)
    requires Base(s) && RoutedState(s) && DrainEnabled(s, 0, x, ok)
    requires HandlingAt(DrainStep(s, 0, x, ok)) && c in DrainStep(s, 0, x, ok).routing.seen
    ensures HandlingAt(s) && c in s.routing.seen ==>
      && s.drainers[0].e == DrainStep(s, 0, x, ok).drainers[0].e
      && s.routing.seen[c] == DrainStep(s, 0, x, ok).routing.seen[c]
    ensures !(HandlingAt(s) && c in s.routing.seen) ==>
      FindsAt(s, DrainStep(s, 0, x, ok).drainers[0].e, c, DrainStep(s, 0, x, ok).routing.seen[c])
  {
    OnlyDrainer(s, 0, x, ok);
    hide Base, Chosen, RegisteredOf, Registered, Recipient, Offered;
  }

  // A subscription has the executor flag and the resume id that the last subscribe request asked for, and has not been
  // dropped since.
  lemma {:induction false} SubscriptionIsRequested(run: seq<State>, i: nat, c: ConnId) returns (j: nat)
    requires IsRun(run) && i < |run| && Subscribed(run[i], c)
    ensures j < i && var sub := run[i].conns[c].sub.value;
      StepsBy(run[j], Subscribe(c, sub.since, sub.executor), run[j + 1]) && sub.gen == run[j].conns[c].nextGen
    ensures forall n :: j < n <= i ==> Subscribed(run[n], c)
    ensures forall n :: j < n < i ==> !StepsBy(run[n], Drop(c), run[n + 1])
  {
    hide Step, Enabled, Base;
    assert i > 0;
    var before := i - 1;
    Reachable(run, before);
    var l := StepTaken(run, before);
    RequestStep(run[before], l, c);
    Undropped(run[before], run[i], c);
    if l.Subscribe? && l.c == c {
      j := before;
    } else {
      j := SubscriptionIsRequested(run, before, c);
    }
  }

  lemma StepTaken(run: seq<State>, i: nat) returns (l: Label)
    requires IsRun(run) && i + 1 < |run|
    ensures StepsBy(run[i], l, run[i + 1])
  {
    assert StepAt(run, i);
    l :| Enabled(run[i], l) && run[i + 1] == Step(run[i], l);
  }

  lemma Undropped(s: State, t: State, c: ConnId)
    requires Subscribed(t, c)
    ensures !StepsBy(s, Drop(c), t)
  {
  }

  lemma RequestStep(s: State, l: Label, c: ConnId)
    requires Enabled(s, l) && Subscribed(Step(s, l), c)
    ensures l.Subscribe? && l.c == c ==>
      var sub := Step(s, l).conns[c].sub.value; l == Subscribe(c, sub.since, sub.executor) && sub.gen == s.conns[c].nextGen
    ensures !(l.Subscribe? && l.c == c) ==>
      Subscribed(s, c) && SameRequest(s.conns[c].sub.value, Step(s, l).conns[c].sub.value)
  {
    hide CompleteConn, DrainStep, VisitStep, Apply;
    match l
    case Complete(x, k, now, keep, fail) =>
      if x == c {
        CompleteContinues(if s.conns[c].runs[k].Collect? then Pruned(s.op, now) else s.op, s.conns[c], k, keep, fail);
      }
    case Drain(d, x, ok) => DrainContinues(s, d, x, ok);
    case Visit(p, x, k, ok) => VisitContinues(s, p, x, k, ok);
    case _ =>
  }
}
