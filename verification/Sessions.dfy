/** Session revocation: logging out records the session's id, and a background task
    drops records older than the session lifetime. Dropping them must not let a
    logged-out session back in. */
module Sessions {
  import opened Options

  /** The content of a session cookie, after decryption and signature check. */
  datatype Session = Session(id: string, user: string, role: string, created: int)

  /** Revoked ids and when they were revoked. */
  type Revoked = map<string, int>

  /** 24 hours, in seconds. */
  const SESSION_TTL := 86400

  // ---------------------------------------------------------------- operations

  /** `GetSession`: the age is tested at `checkedAt`, the revocation map is read
      afterwards. */
  predicate Accepts(revoked: Revoked, s: Session, checkedAt: int) {
    s.id != "" && checkedAt - s.created < SESSION_TTL && s.id !in revoked
  }

  function Pruned(revoked: Revoked, at: int): Revoked {
    map id | id in revoked && revoked[id] >= at - SESSION_TTL :: revoked[id]
  }

  class AuthService {
    var revoked: Revoked

    constructor ()
      ensures revoked == map[]
    {
      revoked := map[];
    }

    /** None stands for a cookie that is missing or that the server did not sign. */
    method GetSession(cookie: Option<Session>, checkedAt: int) returns (session: Option<Session>)
      ensures session == if cookie.Some? && Accepts(revoked, cookie.value, checkedAt) then cookie else None
    {
      if cookie == None { return None; }
      var s := cookie.value;
      if s.id == "" { return None; }
      if checkedAt - s.created >= SESSION_TTL { return None; }
      if s.id in revoked { return None; }
      return cookie;
    }

    /** The lock is released between the lookup and the insertion; `meanwhile` is
        what others have made of the map by then. */
    method Logout(cookie: Option<Session>, checkedAt: int, meanwhile: Revoked, now: int)
      modifies this
      ensures revoked == if cookie.Some? && Accepts(old(revoked), cookie.value, checkedAt)
                         then meanwhile[cookie.value.id := now] else meanwhile
    {
      var session := GetSession(cookie, checkedAt);
      revoked := meanwhile;
      if session.Some? && session.value.id != "" { revoked := revoked[session.value.id := now]; }
    }

    /** One round of `cleanupRevoked`; the map is visited in any order. */
    method CleanupRevoked(at: int)
      modifies this
      ensures revoked == Pruned(old(revoked), at)
      ensures forall id :: id in revoked <==> id in old(revoked) && at - old(revoked)[id] <= 86400
      ensures forall id :: id in revoked ==> revoked[id] == old(revoked)[id]
    {
      var cutoff := at - SESSION_TTL;
      ghost var was := revoked;
      var todo := revoked.Keys;
      while todo != {}
        invariant todo <= revoked.Keys <= was.Keys
        invariant forall id :: id in revoked ==> revoked[id] == was[id]
        invariant forall id :: id in was && id !in todo ==> (id in revoked <==> was[id] >= cutoff)
        decreases |todo|
      {
        var id :| id in todo;
        todo := todo - {id};
        if revoked[id] < cutoff { revoked := revoked - {id}; }
      }
    }
  }

  // ---------------------------------------------------------------------- runs

  /** `leaving` are the sessions whose lookup by a logout succeeded: its insertion is
      still to come, and may come more than once if there are several logouts. */
  datatype State = State(now: int, issued: seq<Session>, revoked: Revoked, leaving: set<Session>)

  /** Requests present sessions the server issued. Ages and cutoffs may have been
      computed at any earlier moment. A logout is two steps, with anything between. */
  datatype Event =
    | Tick(seconds: nat)
    | Login(id: string, user: string, role: string)
    | LookUp(session: Session, checkedAt: int)
    | Revoke(session: Session)
    | Cleanup(at: int)

  function Step(st: State, e: Event, pruning: bool): State {
    match e
    case Tick(seconds) => st.(now := st.now + seconds)
    case Login(id, user, role) => st.(issued := st.issued + [Session(id, user, role, st.now)])
    case LookUp(s, checkedAt) =>
      if s in st.issued && checkedAt <= st.now && Accepts(st.revoked, s, checkedAt)
      then st.(leaving := st.leaving + {s}) else st
    case Revoke(s) =>
      if s in st.leaving then st.(revoked := st.revoked[s.id := st.now]) else st
    case Cleanup(at) =>
      if pruning && at <= st.now then st.(revoked := Pruned(st.revoked, at)) else st
  }

  function Run(st: State, events: seq<Event>, pruning: bool): State
    decreases |events|
  {
    if events == [] then st else Step(Run(st, events[..|events| - 1], pruning), events[|events| - 1], pruning)
  }

  function Start(now: int): State {
    State(now, [], map[], {})
  }

  /** Session ids are never handed out twice. */
  ghost predicate FreshIds(events: seq<Event>) {
    forall i, j :: 0 <= i < j < |events| && events[i].Login? && events[j].Login? ==> events[i].id != events[j].id
  }

  // ----------------------------------------------------------------- invariant

  ghost predicate UniqueIds(issued: seq<Session>) {
    forall s, t :: s in issued && t in issued && s.id == t.id ==> s == t
  }

  ghost predicate IssuedBefore(st: State) {
    forall s :: s in st.issued ==> s.created <= st.now
  }

  /** A revocation is never older than the session it revokes. */
  ghost predicate RevokedAfterIssue(st: State) {
    forall s :: s in st.issued && s.id in st.revoked ==> s.created <= st.revoked[s.id]
  }

  ghost predicate IssuedId(issued: seq<Session>, id: string) {
    exists i :: 0 <= i < |issued| && issued[i].id == id
  }

  ghost predicate RevokedAreIssued(st: State) {
    forall id :: id in st.revoked ==> IssuedId(st.issued, id)
  }

  /** The state with pruning against the one without: what was dropped belongs to
      sessions that have expired. */
  ghost predicate Related(p: State, f: State) {
    && p.now == f.now && p.issued == f.issued && p.revoked.Keys <= f.revoked.Keys
    && (forall s :: s in p.issued && s.id in f.revoked && s.id !in p.revoked ==> p.now - s.created > SESSION_TTL)
  }

  /** The same logouts are under way, except those of sessions that are revoked without
      pruning anyway. */
  ghost predicate LeaveTogether(p: State, f: State) {
    && (forall s :: s in f.leaving ==> s in p.leaving)
    && (forall s :: s in p.leaving ==> s in p.issued && Leaves(f, s))
  }

  /** The session is revoked, or about to be. */
  predicate Leaves(st: State, s: Session) {
    s in st.leaving || s.id in st.revoked
  }

  ghost predicate Good(p: State, f: State) {
    && Related(p, f) && LeaveTogether(p, f) && UniqueIds(p.issued) && IssuedBefore(p)
    && RevokedAfterIssue(p) && RevokedAreIssued(p) && RevokedAreIssued(f)
  }

  ghost predicate LoginIsFresh(st: State, e: Event) {
    e.Login? ==> forall s :: s in st.issued ==> s.id != e.id
  }

  lemma LoginKeepsGood(p: State, f: State, e: Event)
    requires Good(p, f) && e.Login? && LoginIsFresh(p, e)
    ensures Good(Step(p, e, true), Step(f, e, false))
  {
    var s := Session(e.id, e.user, e.role, p.now);
    forall id | IssuedId(p.issued, id) ensures IssuedId(p.issued + [s], id) && id != e.id {
      var i :| 0 <= i < |p.issued| && p.issued[i].id == id;
      assert (p.issued + [s])[i].id == id;
    }
    assert e.id !in f.revoked;
  }

  lemma RevokeKeepsGood(p: State, f: State, s: Session)
    requires Good(p, f)
    ensures Good(Step(p, Revoke(s), true), Step(f, Revoke(s), false))
  {
    if s in p.leaving {
      var i :| 0 <= i < |p.issued| && p.issued[i] == s;
      assert IssuedId(p.issued, s.id);
    }
  }

  lemma StepKeepsGood(p: State, f: State, e: Event)
    requires Good(p, f) && LoginIsFresh(p, e)
    ensures Good(Step(p, e, true), Step(f, e, false))
  {
    match e
    case Tick(_) =>
    case Login(_, _, _) => LoginKeepsGood(p, f, e);
    case LookUp(_, _) =>
    case Revoke(s) => RevokeKeepsGood(p, f, s);
    case Cleanup(_) =>
  }

  lemma {:induction false} IssuedComeFromLogins(st: State, events: seq<Event>, pruning: bool, s: Session)
    requires s in Run(st, events, pruning).issued
    ensures s in st.issued || exists i :: 0 <= i < |events| && events[i].Login? && events[i].id == s.id
    decreases |events|
  {
    if events != [] {
      var n := |events| - 1;
      var before := Run(st, events[..n], pruning);
      if s in before.issued {
        IssuedComeFromLogins(st, events[..n], pruning, s);
        if s !in st.issued {
          var i :| 0 <= i < n && events[..n][i].Login? && events[..n][i].id == s.id;
          assert events[i].Login?;
        }
      } else {
        assert events[n].Login? && events[n].id == s.id;
      }
    }
  }

  lemma {:induction false} RunKeepsGood(now: int, events: seq<Event>)
    requires FreshIds(events)
    ensures Good(Run(Start(now), events, true), Run(Start(now), events, false))
    decreases |events|
  {
    if events != [] {
      var n := |events| - 1;
      RunKeepsGood(now, events[..n]);
      var p := Run(Start(now), events[..n], true);
      forall s | s in p.issued && events[n].Login? ensures s.id != events[n].id {
        IssuedComeFromLogins(Start(now), events[..n], true, s);
      }
      StepKeepsGood(p, Run(Start(now), events[..n], false), events[n]);
    }
  }

  // ----------------------------------------------------------------- properties

  /** Over every run of logins, logouts, clock advances and cleanups, a session
      gets the same verdict as with a map that is never pruned, provided it has
      not outlived its lifetime between the age test and the lookup. */
  lemma PruningNeverRevives(now: int, events: seq<Event>, s: Session, checkedAt: int)
    requires FreshIds(events)
    requires var st := Run(Start(now), events, true); s in st.issued && checkedAt <= st.now
    requires Run(Start(now), events, true).now - s.created <= SESSION_TTL || checkedAt - s.created >= SESSION_TTL
    ensures Accepts(Run(Start(now), events, true).revoked, s, checkedAt)
        <==> Accepts(Run(Start(now), events, false).revoked, s, checkedAt)
  {
    RunKeepsGood(now, events);
  }

  /** When test and lookup happen at the same moment nothing more is needed. */
  lemma PruningNeverRevivesAtOnce(now: int, events: seq<Event>, s: Session)
    requires FreshIds(events) && s in Run(Start(now), events, true).issued
    ensures var p, f := Run(Start(now), events, true), Run(Start(now), events, false);
            p.now == f.now && (Accepts(p.revoked, s, p.now) <==> Accepts(f.revoked, s, f.now))
  {
    RunKeepsGood(now, events);
  }

  /** The lifetime condition is exact: a request that stalls between its two
      checks until the session is any amount past its lifetime can be accepted
      although the session was logged out. */
  lemma StalledRequestRevives(over: nat) returns (events: seq<Event>, s: Session)
    requires over > 0
    ensures FreshIds(events)
    ensures var p, f := Run(Start(0), events, true), Run(Start(0), events, false);
            && s in p.issued && p.now - s.created == SESSION_TTL + over
            && Accepts(p.revoked, s, 0) && !Accepts(f.revoked, s, 0)
  {
    s := OLD_SESSION;
    var late := SESSION_TTL + over;
    events := LOG_IN_AND_OUT + [Tick(late)] + [Cleanup(late)];
    forall pruning: bool
      ensures Run(Start(0), events, pruning)
           == State(late, [s], if pruning then map[] else map["a" := 0], {OLD_SESSION})
    {
      LoggedInAndOut(pruning);
      OneMore(Start(0), LOG_IN_AND_OUT, Tick(late), pruning);
      OneMore(Start(0), LOG_IN_AND_OUT + [Tick(late)], Cleanup(late), pruning);
      assert Pruned(map["a" := 0], late) == map[];
    }
  }

  const OLD_SESSION := Session("a", "admin", "admin", 0)

  const LOG_IN_AND_OUT := [Login("a", "admin", "admin")] + [LookUp(OLD_SESSION, 0)] + [Revoke(OLD_SESSION)]

  lemma OneMore(st: State, events: seq<Event>, e: Event, pruning: bool)
    ensures Run(st, events + [e], pruning) == Step(Run(st, events, pruning), e, pruning)
  {
    assert (events + [e])[..|events|] == events;
  }

  lemma LoggedInAndOut(pruning: bool)
    ensures Run(Start(0), LOG_IN_AND_OUT, pruning) == State(0, [OLD_SESSION], map["a" := 0], {OLD_SESSION})
  {
    var first, second := [Login("a", "admin", "admin")], [LookUp(OLD_SESSION, 0)];
    OneMore(Start(0), [], first[0], pruning);
    assert [] + [first[0]] == first;
    OneMore(Start(0), first, second[0], pruning);
    OneMore(Start(0), first + second, Revoke(OLD_SESSION), pruning);
  }

  lemma {:induction false} FullOnlyGrows(st: State, events: seq<Event>)
    ensures st.revoked.Keys <= Run(st, events, false).revoked.Keys
    decreases |events|
  {
    if events != [] { FullOnlyGrows(st, events[..|events| - 1]); }
  }

  lemma {:induction false} RunConcat(st: State, a: seq<Event>, b: seq<Event>, pruning: bool)
    ensures Run(st, a + b, pruning) == Run(Run(st, a, pruning), b, pruning)
    decreases |b|
  {
    if b == [] {
      assert a + b == a;
    } else {
      assert (a + b)[..|a + b| - 1] == a + b[..|b| - 1];
      RunConcat(st, a, b[..|b| - 1], pruning);
    }
  }

  lemma {:induction false} LeavesStays(st: State, events: seq<Event>, s: Session)
    requires Leaves(st, s)
    ensures Leaves(Run(st, events, false), s)
    decreases |events|
  {
    if events != [] { LeavesStays(st, events[..|events| - 1], s); }
  }

  /** A session that was logged out is not accepted again, whatever happens during the
      logout and after it, and however often the map is pruned. */
  lemma LogoutIsFinal(now: int, before: seq<Event>, s: Session, during: seq<Event>, after: seq<Event>)
    returns (events: seq<Event>)
    requires s in Run(Start(now), before, true).issued
    requires FreshIds(before + [LookUp(s, Run(Start(now), before, true).now)] + during + [Revoke(s)] + after)
    ensures events == before + [LookUp(s, Run(Start(now), before, true).now)] + during + [Revoke(s)] + after
    ensures var st := Run(Start(now), events, true); !Accepts(st.revoked, s, st.now)
  {
    var st := Run(Start(now), before, true);
    var lookUp := LookUp(s, st.now);
    var head := before + [lookUp] + during;
    events := head + [Revoke(s)] + after;
    assert events[..|before|] == before;
    RunKeepsGood(now, before);
    RunKeepsGood(now, events);
    ThenOneMore(now, before, lookUp, during, false);
    ThenOneMore(now, head, Revoke(s), after, false);
    ThenOneMore(now, before, lookUp, during + [Revoke(s)] + after, true);
    assert before + [lookUp] + (during + [Revoke(s)] + after) == events;
    IssuedStay(Step(st, lookUp, true), during + [Revoke(s)] + after, true);
    var entered := Step(Run(Start(now), before, false), lookUp, false);
    if Leaves(entered, s) {
      LeavesStays(entered, during, s);
      FullOnlyGrows(Step(Run(Start(now), head, false), Revoke(s), false), after);
    }
  }

  lemma ThenOneMore(now: int, before: seq<Event>, e: Event, after: seq<Event>, pruning: bool)
    ensures Run(Start(now), before + [e] + after, pruning)
         == Run(Step(Run(Start(now), before, pruning), e, pruning), after, pruning)
  {
    assert (before + [e])[..|before|] == before;
    RunConcat(Start(now), before + [e], after, pruning);
  }

  lemma {:induction false} IssuedStay(st: State, events: seq<Event>, pruning: bool)
    ensures st.issued <= Run(st, events, pruning).issued && st.now <= Run(st, events, pruning).now
    decreases |events|
  {
    if events != [] { IssuedStay(st, events[..|events| - 1], pruning); }
  }

  /** The logout of the session got as far as its insertion. */
  ghost predicate WasRevoked(now: int, events: seq<Event>, s: Session) {
    exists k :: 0 <= k < |events| && events[k] == Revoke(s) && s in Run(Start(now), events[..k], true).leaving
  }

  lemma PrefixThenRest(now: int, events: seq<Event>, k: nat, pruning: bool)
    requires k <= |events|
    ensures Run(Start(now), events, pruning) == Run(Run(Start(now), events[..k], pruning), events[k..], pruning)
  {
    assert events == events[..k] + events[k..];
    RunConcat(Start(now), events[..k], events[k..], pruning);
  }

  /** Every entry of the map that is never pruned comes from an insertion. */
  lemma {:induction false} RevokedByInsertion(now: int, events: seq<Event>, id: string) returns (k: nat, t: Session)
    requires FreshIds(events) && id in Run(Start(now), events, false).revoked
    ensures k < |events| && events[k] == Revoke(t) && t.id == id && t in Run(Start(now), events[..k], true).leaving
    decreases |events|
  {
    var n := |events| - 1;
    var before := Run(Start(now), events[..n], false);
    if id in before.revoked {
      k, t := RevokedByInsertion(now, events[..n], id);
      assert events[..n][..k] == events[..k];
    } else {
      RunKeepsGood(now, events[..n]);
      k, t := n, events[n].session;
    }
  }

  lemma InsertionStays(now: int, events: seq<Event>, k: nat, t: Session)
    requires FreshIds(events) && k < |events| && events[k] == Revoke(t)
    requires t in Run(Start(now), events[..k], true).leaving
    ensures t.id in Run(Start(now), events, false).revoked
  {
    RunKeepsGood(now, events[..k]);
    var f := Run(Start(now), events[..k], false);
    assert Leaves(f, t);
    assert events == events[..k] + [Revoke(t)] + events[k + 1..];
    ThenOneMore(now, events[..k], Revoke(t), events[k + 1..], false);
    FullOnlyGrows(Step(f, Revoke(t), false), events[k + 1..]);
  }

  lemma LeavingWasIssued(now: int, events: seq<Event>, k: nat, t: Session)
    requires FreshIds(events) && k <= |events| && t in Run(Start(now), events[..k], true).leaving
    ensures t in Run(Start(now), events, true).issued
  {
    RunKeepsGood(now, events[..k]);
    PrefixThenRest(now, events, k, true);
    IssuedStay(Run(Start(now), events[..k], true), events[k..], true);
  }

  lemma RevokedIff(now: int, events: seq<Event>, s: Session)
    requires FreshIds(events) && s in Run(Start(now), events, true).issued
    ensures s.id in Run(Start(now), events, false).revoked <==> WasRevoked(now, events, s)
  {
    if s.id in Run(Start(now), events, false).revoked {
      var k, t := RevokedByInsertion(now, events, s.id);
      LeavingWasIssued(now, events, k, t);
      RunKeepsGood(now, events);
      assert t == s;
    }
    if WasRevoked(now, events, s) {
      var k :| 0 <= k < |events| && events[k] == Revoke(s) && s in Run(Start(now), events[..k], true).leaving;
      InsertionStays(now, events, k, s);
    }
  }

  /** Who is let in: an issued session is accepted exactly if it has an id, is younger
      than a day, and its logout has not got as far as its insertion; whatever others do
      and however often the map is pruned. */
  lemma AcceptedIff(now: int, events: seq<Event>, s: Session)
    requires FreshIds(events) && s in Run(Start(now), events, true).issued
    ensures var st := Run(Start(now), events, true);
            Accepts(st.revoked, s, st.now) <==>
            s.id != "" && st.now - s.created < 86400 && !WasRevoked(now, events, s)
  {
    PruningNeverRevivesAtOnce(now, events, s);
    RevokedIff(now, events, s);
  }

  /** Logging one session out leaves the verdict on every other one unchanged. */
  lemma LogoutRevokesOnlyItself(now: int, events: seq<Event>, s: Session, other: Session, checkedAt: int)
    requires FreshIds(events)
    requires var issued := Run(Start(now), events, true).issued; s in issued && other in issued && s != other
    ensures var st := Run(Start(now), events, true);
            Accepts(Step(st, Revoke(s), true).revoked, other, checkedAt) <==> Accepts(st.revoked, other, checkedAt)
  {
    RunKeepsGood(now, events);
  }

  /** Ids must not repeat: here a second session with a logged-out id is refused
      without pruning, and accepted with it. */
  lemma ReusedIdChangesVerdict() returns (events: seq<Event>, s: Session)
    ensures var p, f := Run(Start(0), events, true), Run(Start(0), events, false);
            s in p.issued && p.now - s.created == 1 && Accepts(p.revoked, s, p.now) && !Accepts(f.revoked, s, f.now)
  {
    s := Session("a", "admin", "admin", SESSION_TTL);
    var day, again, late := Tick(SESSION_TTL), Login("a", "admin", "admin"), SESSION_TTL + 1;
    var head := LOG_IN_AND_OUT + [day] + [again];
    events := head + [Tick(1)] + [Cleanup(late)];
    forall pruning: bool
      ensures Run(Start(0), events, pruning)
           == State(late, [OLD_SESSION, s], if pruning then map[] else map["a" := 0], {OLD_SESSION})
    {
      LoggedInAndOut(pruning);
      OneMore(Start(0), LOG_IN_AND_OUT, day, pruning);
      OneMore(Start(0), LOG_IN_AND_OUT + [day], again, pruning);
      OneMore(Start(0), head, Tick(1), pruning);
      OneMore(Start(0), head + [Tick(1)], Cleanup(late), pruning);
      assert Pruned(map["a" := 0], late) == map[];
    }
  }
}
