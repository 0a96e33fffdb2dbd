/**
 * Owner checks of v1 connections (operation.go): a connection may authenticate before init has named the operation's
 * owner; init then rechecks the connections it finds registered. Sections of any number of connections and repeated
 * inits, all naming the same owner, interleave freely.
 */
module Ownership {

  datatype Attachment = Attachment(userID: string, clientID: string, authenticated: bool, pendingOwner: bool)

  const ANONYMOUS: Attachment := Attachment("", "", false, false)

  datatype Verdict = Keep | Evict

  // authenticateConnection under the operation lock; None is the mismatch error.
  function Authenticated(a: Attachment, stored: string, user: string, client: string): (Attachment, bool) {
    if stored != "" && stored != user then (a, false) else (Attachment(user, client, true, stored == ""), true)
  }

  // verifyPendingOwner under the connection lock.
  function Verified(a: Attachment, owner: string): (Attachment, Verdict) {
    if !a.pendingOwner then (a, Keep)
    else if a.userID == owner then (a.(pendingOwner := false), Keep)
    else (a, Evict)
  }

  class OperationConnection {
    var authenticated: bool
    var clientID: string
    var pendingOwner: bool
    var userID: string

    function Att(): Attachment
      reads this
    {
      Attachment(userID, clientID, authenticated, pendingOwner)
    }

    constructor ()
      ensures Att() == ANONYMOUS
    {
      authenticated, clientID, pendingOwner, userID := false, "", false, "";
    }

    method Authenticate(stored: string, user: string, client: string) returns (ok: bool)
      modifies this
      ensures (Att(), ok) == Authenticated(old(Att()), stored, user, client)
    {
      if stored != "" && stored != user { return false; }
      authenticated, clientID, pendingOwner, userID := true, client, stored == "", user;
      return true;
    }

    method VerifyPendingOwner(owner: string) returns (verdict: Verdict)
      modifies this`pendingOwner
      ensures (Att(), verdict) == Verified(old(Att()), owner)
    {
      if !pendingOwner { return Keep; }
      if userID == owner {
        pendingOwner := false;
        return Keep;
      }
      return Evict;
    }
  }

  // ------------------------------------------------------------------ interleavings

  type ConnId = nat

  datatype Conn = Conn(att: Attachment, registered: bool)

  // An init call: connections still to recheck, or one found wrong and about to be removed.
  datatype Recheck = Checking(todo: set<ConnId>) | Removing(todo: set<ConnId>, c: ConnId)

  datatype State = State(owner: string, stored: string, conns: map<ConnId, Conn>, inits: map<nat, Recheck>)

  datatype Label =
    | Register(c: ConnId)
    | Auth(c: ConnId, user: string, client: string)
    | Leave(c: ConnId)                    // closed by the client, a timeout or a failed authentication
    | InitLock(p: nat)
    | Check(p: nat, c: ConnId)
    | Remove(p: nat)

  predicate Enabled(s: State, l: Label) {
    match l
    case Register(c) => c !in s.conns
    case Auth(c, _, _) => c in s.conns && !s.conns[c].att.authenticated
    case Leave(c) => c in s.conns
    case InitLock(p) => p !in s.inits
    case Check(p, c) => p in s.inits && s.inits[p].Checking? && c in s.inits[p].todo
    case Remove(p) => p in s.inits && s.inits[p].Removing?
  }

  function Unregister(conns: map<ConnId, Conn>, c: ConnId): map<ConnId, Conn> {
    if c in conns then conns[c := conns[c].(registered := false)] else conns
  }

  function Step(s: State, l: Label): State
    requires Enabled(s, l)
  {
    match l
    case Register(c) => s.(conns := s.conns[c := Conn(ANONYMOUS, true)])
    case Auth(c, user, client) =>
      s.(conns := s.conns[c := s.conns[c].(att := Authenticated(s.conns[c].att, s.stored, user, client).0)])
    case Leave(c) => s.(conns := Unregister(s.conns, c))
    case InitLock(p) =>
      s.(stored := s.owner, inits := s.inits[p := Checking(set c | c in s.conns && s.conns[c].registered)])
    case Check(p, c) =>
      var todo := s.inits[p].todo - {c};
      if c !in s.conns then s.(inits := s.inits[p := Checking(todo)])
      else
        var (att, verdict) := Verified(s.conns[c].att, s.owner);
        s.(conns := s.conns[c := s.conns[c].(att := att)],
           inits := s.inits[p := if verdict.Evict? then Removing(todo, c) else Checking(todo)])
    case Remove(p) =>
      s.(conns := Unregister(s.conns, s.inits[p].c), inits := s.inits[p := Checking(s.inits[p].todo)])
  }

  ghost predicate StepAt(run: seq<State>, i: nat)
    requires i + 1 < |run|
  {
    exists l :: Enabled(run[i], l) && run[i + 1] == Step(run[i], l)
  }

  ghost predicate IsRun(run: seq<State>) {
    && |run| > 0 && run[0].owner != "" && run[0] == State(run[0].owner, "", map[], map[])
    && forall i :: 0 <= i < |run| - 1 ==> StepAt(run, i)
  }

  // A connection that is let in for somebody who is not the owner.
  predicate Intruder(s: State, c: ConnId) {
    c in s.conns && s.conns[c].registered && s.conns[c].att.authenticated && s.conns[c].att.userID != s.owner
  }

  predicate Reaches(r: Recheck, c: ConnId) {
    c in r.todo || (r.Removing? && r.c == c)
  }

  ghost predicate Inv(s: State) {
    && s.owner != "" && (s.stored == "" || s.stored == s.owner) && (s.stored == "" ==> s.inits == map[])
    && (forall c :: c in s.conns && s.conns[c].att.authenticated && s.conns[c].att.userID != s.owner ==> s.conns[c].att.pendingOwner)
    && (forall c :: c in s.conns && s.conns[c].att.pendingOwner ==> s.conns[c].att.authenticated)
    && (forall p, c :: p in s.inits && Intruder(s, c) ==> Reaches(s.inits[p], c))
    && (forall p :: p in s.inits && s.inits[p].Removing? ==> Wrong(s, s.inits[p].c))
  }

  predicate Wrong(s: State, c: ConnId) {
    c in s.conns && s.conns[c].att.authenticated && s.conns[c].att.userID != s.owner
  }

  lemma StepInv(s: State, l: Label)
    requires Inv(s) && Enabled(s, l)
    ensures Inv(Step(s, l)) && Step(s, l).owner == s.owner
  {
    var s' := Step(s, l);
    forall p, c | p in s'.inits && Intruder(s', c) ensures Reaches(s'.inits[p], c) {
      if Intruder(s, c) && p in s.inits { assert Reaches(s.inits[p], c); }
    }
  }

  lemma {:induction false} Reachable(run: seq<State>, i: nat)
    requires IsRun(run) && i < |run|
    ensures Inv(run[i]) && run[i].owner == run[0].owner
  {
    if i == 0 {
    } else {
      Reachable(run, i - 1);
      assert StepAt(run, i - 1);
      var l :| Enabled(run[i - 1], l) && run[i] == Step(run[i - 1], l);
      StepInv(run[i - 1], l);
    }
  }

  // Once any init has finished its recheck, no registered authenticated connection belongs to another user, whichever
  // of authentication and init took the operation lock first.
  lemma NoIntruderAfterInit(run: seq<State>, i: nat, p: nat, c: ConnId)
    requires IsRun(run) && i < |run| && p in run[i].inits && run[i].inits[p] == Checking({})
    ensures !Intruder(run[i], c)
  {
    Reachable(run, i);
  }

  // And the recheck never removes a connection of the owner.
  lemma OwnerStays(run: seq<State>, i: nat, p: nat, c: ConnId)
    requires IsRun(run) && i < |run| && Enabled(run[i], Remove(p))
    requires c in run[i].conns && run[i].conns[c].registered && run[i].conns[c].att.userID == run[i].owner
    ensures Step(run[i], Remove(p)).conns[c] == run[i].conns[c]
  {
    Reachable(run, i);
  }

  // An authentication is refused exactly if an owner is stored and it is somebody else; whoever is not refused is let in
  // under his own name. So the owner always is.
  lemma RefusedExactly(run: seq<State>, i: nat, c: ConnId, user: string, client: string)
    requires IsRun(run) && i < |run| && Enabled(run[i], Auth(c, user, client))
    ensures var s, att := run[i], Step(run[i], Auth(c, user, client)).conns[c].att;
      && (!att.authenticated <==> s.stored != "" && user != s.owner)
      && (att.authenticated ==> att.userID == user && att.clientID == client)
      && (!att.authenticated ==> att == s.conns[c].att)
  {
    Reachable(run, i);
  }
}
