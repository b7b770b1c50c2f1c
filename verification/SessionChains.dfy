/**
  What rotation keeps over every run: sessions form disjoint forward chains, one per
  login, with nothing active but a tail; reuse and reset leave nothing active; and of a
  user's link tokens at most one per purpose is unspent.
*/
module SessionChains {
  import opened Options
  import opened Tables
  import opened Sessions
  import Text

  // --- chains --------------------------------------------------------------------------------

  /** One chain: each session replaced by the next, all of one user, all but the last revoked. */
  ghost predicate ChainOk(sessions: map<Id, Session>, c: seq<Id>) {
    && |c| > 0
    && (forall i :: 0 <= i < |c| ==> c[i] in sessions)
    && (forall i :: 0 <= i < |c| ==> sessions[c[i]].user == sessions[c[0]].user)
    && (forall i :: 0 <= i < |c| - 1 ==> sessions[c[i]].replacedBy == Some(c[i + 1]) && !Active(sessions[c[i]]))
    && sessions[c[|c| - 1]].replacedBy == None
  }

  ghost predicate InChain(c: seq<Id>, id: Id) {
    exists i :: 0 <= i < |c| && c[i] == id
  }

  ghost predicate InSomeChain(chains: map<Id, seq<Id>>, id: Id) {
    exists r :: r in chains && InChain(chains[r], id)
  }

  ghost predicate NoRepeat(c: seq<Id>) {
    forall i, j :: 0 <= i < j < |c| ==> c[i] != c[j]
  }

  ghost predicate DisjointChains(c: seq<Id>, d: seq<Id>) {
    forall i, j :: 0 <= i < |c| && 0 <= j < |d| ==> c[i] != d[j]
  }

  ghost predicate ChainAt(sessions: map<Id, Session>, c: seq<Id>, root: Id) {
    ChainOk(sessions, c) && c[0] == root && NoRepeat(c)
  }

  ghost predicate AllOk(sessions: map<Id, Session>, chains: map<Id, seq<Id>>) {
    forall r :: r in chains ==> ChainAt(sessions, chains[r], r)
  }

  ghost predicate AllDisjoint(chains: map<Id, seq<Id>>) {
    forall r, q :: r in chains && q in chains && r != q ==> DisjointChains(chains[r], chains[q])
  }

  ghost predicate AllCovered(sessions: map<Id, Session>, chains: map<Id, seq<Id>>) {
    forall id :: id in sessions ==> InSomeChain(chains, id)
  }

  /** `chains`, keyed by their first session, hold every session exactly once. */
  ghost predicate Decomposed(sessions: map<Id, Session>, chains: map<Id, seq<Id>>) {
    AllOk(sessions, chains) && AllDisjoint(chains) && AllCovered(sessions, chains)
  }

  /** Only the tail of a chain can be active. */
  lemma OnlyTailsActive(sessions: map<Id, Session>, chains: map<Id, seq<Id>>, r: Id, i: nat)
    requires Decomposed(sessions, chains) && r in chains && i < |chains[r]|
    requires chains[r][i] in sessions && Active(sessions[chains[r][i]])
    ensures i == |chains[r]| - 1
  {
    hide AllDisjoint, AllCovered;
    assert ChainAt(sessions, chains[r], r);
  }

  /** Sessions may be revoked, but keep their user and their link. */
  ghost predicate OnlyRevoked(before: map<Id, Session>, after: map<Id, Session>) {
    && after.Keys == before.Keys
    && forall id :: id in before ==>
         && after[id].user == before[id].user && after[id].replacedBy == before[id].replacedBy
         && (!Active(before[id]) ==> !Active(after[id]))
  }

  /** Revoking some sessions, without links, leaves the chains as they are. */
  lemma RevokingKeepsChains(before: map<Id, Session>, after: map<Id, Session>, chains: map<Id, seq<Id>>)
    requires Decomposed(before, chains) && OnlyRevoked(before, after)
    ensures Decomposed(after, chains)
  {
  }

  /** A chain that does not mention the changed or added session is still one. */
  lemma OtherChainKept(before: map<Id, Session>, after: map<Id, Session>, c: seq<Id>, root: Id)
    requires ChainAt(before, c, root)
    requires forall id :: InChain(c, id) ==> id in after && after[id] == before[id]
    ensures ChainAt(after, c, root)
  {
  }

  lemma ChainMembers(sessions: map<Id, Session>, c: seq<Id>, root: Id)
    requires ChainAt(sessions, c, root)
    ensures forall id :: InChain(c, id) ==> id in sessions
    ensures InChain(c, root)
  {
  }

  lemma NewMemberDisjoint(sessions: map<Id, Session>, c: seq<Id>, root: Id, d: seq<Id>, added: Id)
    requires ChainAt(sessions, c, root) && DisjointChains(c, d) && added !in sessions
    ensures DisjointChains(c, d + [added]) && DisjointChains(d + [added], c)
  {
  }

  lemma LoginStartsChain(sessions: map<Id, Session>, chains: map<Id, seq<Id>>, id: Id, s: Session)
    requires Decomposed(sessions, chains) && id !in sessions && s.replacedBy == None
    ensures Decomposed(sessions[id := s], chains[id := [id]])
    ensures id !in chains
  {
    hide ChainOk, NoRepeat, DisjointChains, InChain;
    var after, grown := sessions[id := s], chains[id := [id]];
    forall r | r in chains
      ensures ChainAt(after, chains[r], r) && r != id && DisjointChains(chains[r], [id]) && DisjointChains([id], chains[r])
    {
      ChainMembers(sessions, chains[r], r);
      OtherChainKept(sessions, after, chains[r], r);
      NothingDisjoint(chains[r]);
      NewMemberDisjoint(sessions, chains[r], r, [], id);
      assert [] + [id] == [id];
    }
    SingleChain(after, id);
    forall k | k in after ensures InSomeChain(grown, k) {
      if k == id {
        assert grown[id] == [id] && InChain(grown[id], id);
      } else {
        assert InSomeChain(chains, k);
        var r :| r in chains && InChain(chains[r], k);
        assert InChain(grown[r], k);
      }
    }
  }

  lemma NothingDisjoint(c: seq<Id>)
    ensures DisjointChains(c, [])
  {
  }

  lemma SingleChain(sessions: map<Id, Session>, id: Id)
    requires id in sessions && sessions[id].replacedBy == None
    ensures ChainAt(sessions, [id], id) && InChain([id], id)
  {
  }

  /** `tail` retired in favour of `added`. */
  function Rotated(sessions: map<Id, Session>, tail: Id, added: Id, retired: Session, s: Session): map<Id, Session> {
    sessions[added := s][tail := retired]
  }

  function Grown(chains: map<Id, seq<Id>>, r: Id, added: Id): map<Id, seq<Id>>
    requires r in chains
  {
    chains[r := chains[r] + [added]]
  }

  /** Appending to the chain whose tail was just replaced. */
  lemma ChainGrows(sessions: map<Id, Session>, c: seq<Id>, root: Id, tail: Id, added: Id, retired: Session, s: Session)
    requires ChainAt(sessions, c, root) && c[|c| - 1] == tail && added !in sessions
    requires retired.user == sessions[tail].user == s.user && retired.replacedBy == Some(added) && !Active(retired)
    requires s.replacedBy == None
    ensures ChainAt(Rotated(sessions, tail, added, retired, s), c + [added], root)
  {
  }

  /** Rotation extends the chain of the presented session. */
  lemma RefreshExtendsChain(sessions: map<Id, Session>, chains: map<Id, seq<Id>>, r: Id, tail: Id, added: Id,
                            retired: Session, s: Session)
    requires r in chains && |chains[r]| > 0 && chains[r][|chains[r]| - 1] == tail
    requires tail in sessions && added !in sessions
    requires retired.user == sessions[tail].user == s.user && retired.replacedBy == Some(added) && !Active(retired)
    requires s.replacedBy == None
    requires Decomposed(sessions, chains)
    ensures Decomposed(Rotated(sessions, tail, added, retired, s), Grown(chains, r, added))
  {
    hide AllOk, AllDisjoint, AllCovered;
    GrownOk(sessions, chains, r, added, retired, s);
    GrownDisjoint(sessions, chains, r, added);
    GrownCovers(sessions, chains, r, added, retired, s);
  }

  lemma GrownOk(sessions: map<Id, Session>, chains: map<Id, seq<Id>>, r: Id, added: Id, retired: Session, s: Session)
    requires AllOk(sessions, chains) && AllDisjoint(chains) && r in chains && |chains[r]| > 0 && added !in sessions
    requires var tail := chains[r][|chains[r]| - 1];
             tail in sessions && retired.user == sessions[tail].user == s.user
    requires retired.replacedBy == Some(added) && !Active(retired) && s.replacedBy == None
    ensures AllOk(Rotated(sessions, chains[r][|chains[r]| - 1], added, retired, s), Grown(chains, r, added))
  {
    hide ChainAt, DisjointChains;
    var tail := chains[r][|chains[r]| - 1];
    ChainGrows(sessions, chains[r], r, tail, added, retired, s);
    forall q | q in chains && q != r ensures ChainAt(Rotated(sessions, tail, added, retired, s), chains[q], q) {
      OtherChainApart(sessions, chains[q], q, chains[r], added, retired, s);
    }
  }

  lemma GrownDisjoint(sessions: map<Id, Session>, chains: map<Id, seq<Id>>, r: Id, added: Id)
    requires AllOk(sessions, chains) && AllDisjoint(chains) && r in chains && added !in sessions
    ensures AllDisjoint(Grown(chains, r, added))
  {
  }

  lemma GrownCovers(sessions: map<Id, Session>, chains: map<Id, seq<Id>>, r: Id, added: Id, retired: Session, s: Session)
    requires AllCovered(sessions, chains) && r in chains && |chains[r]| > 0
    requires chains[r][|chains[r]| - 1] in sessions
    ensures AllCovered(Rotated(sessions, chains[r][|chains[r]| - 1], added, retired, s), Grown(chains, r, added))
  {
    hide InSomeChain;
    var after := Rotated(sessions, chains[r][|chains[r]| - 1], added, retired, s);
    forall k | k in after ensures InSomeChain(Grown(chains, r, added), k) {
      KeptInSomeChain(sessions, chains, r, added, k);
    }
  }

  lemma OtherChainApart(sessions: map<Id, Session>, c: seq<Id>, root: Id, d: seq<Id>, added: Id, retired: Session, s: Session)
    requires ChainAt(sessions, c, root) && DisjointChains(c, d) && |d| > 0 && added !in sessions
    ensures ChainAt(Rotated(sessions, d[|d| - 1], added, retired, s), c, root)
    ensures DisjointChains(c, d + [added]) && DisjointChains(d + [added], c)
  {
  }

  lemma KeptInSomeChain(sessions: map<Id, Session>, chains: map<Id, seq<Id>>, r: Id, added: Id, k: Id)
    requires r in chains
    requires k == added || InSomeChain(chains, k)
    ensures InSomeChain(Grown(chains, r, added), k)
  {
    var grown := Grown(chains, r, added);
    if k == added {
      assert grown[r][|chains[r]|] == added;
      assert InChain(grown[r], added);
    } else {
      var q :| q in chains && InChain(chains[q], k);
      var i :| 0 <= i < |chains[q]| && chains[q][i] == k;
      assert grown[q][i] == k;
      assert InChain(grown[q], k);
    }
  }

  // --- runs ----------------------------------------------------------------------------------------

  datatype AuthCall =
    | Register(email: string, password: Password, displayName: string, salt: nat, user: Id, session: Id, token: Id)
    | Login(email: string, password: Password, session: Id)
    | Refresh(presented: Id, session: Id)
    | Logout(presented: Id)
    | RequestReset(email: string, token: Id)
    | Reset(token: Id, password: Password, salt: nat)
    | Verify(token: Id)
    | Resend(user: Id, token: Id)

  datatype Timed = Timed(now: int, call: AuthCall)

  /** Issued values are added and never the empty one. */
  predicate FreshSession(db: AuthDb, id: Id) {
    id !in db.sessions && id != NIL_ID
  }

  predicate Possible(db: AuthDb, c: AuthCall) {
    match c
    case Register(_, _, _, _, user, session, token) => user !in db.users && FreshSession(db, session) && token !in db.tokens
    case Login(_, _, session) => FreshSession(db, session)
    case Refresh(_, session) => FreshSession(db, session)
    case RequestReset(_, token) => token !in db.tokens
    case Resend(_, token) => token !in db.tokens
    case _ => true
  }

  ghost function Next(db: AuthDb, cfg: Config, now: int, c: AuthCall): AuthDb {
    match c
    case Register(email, password, name, salt, user, session, token) =>
      AfterRegister(db, cfg, now, email, password, name, salt, user, session, token).0
    case Login(email, password, session) => AfterLogin(db, cfg, now, email, password, session).0
    case Refresh(presented, session) => AfterRefresh(db, cfg.refreshTtl, now, presented, session).0
    case Logout(presented) => AfterLogout(db, now, presented)
    case RequestReset(email, token) => AfterResetRequest(db, cfg, now, email, token)
    case Reset(token, password, salt) => AfterReset(db, cfg, now, token, password, salt).0
    case Verify(token) => AfterVerify(db, now, token).0
    case Resend(user, token) => AfterResend(db, now, user, token).0
  }

  ghost function Step(db: AuthDb, cfg: Config, c: Timed): AuthDb {
    if Possible(db, c.call) then Next(db, cfg, c.now, c.call) else db
  }

  ghost function Run(db: AuthDb, cfg: Config, calls: seq<Timed>): AuthDb
    decreases |calls|
  {
    if calls == [] then db else Run(Step(db, cfg, calls[0]), cfg, calls[1..])
  }

  /** The session a call starts from scratch, when it succeeds. */
  ghost function StartedBy(db: AuthDb, cfg: Config, c: Timed): set<Id> {
    if !Possible(db, c.call) then {}
    else
      match c.call
      case Register(email, password, name, salt, user, session, token) =>
        if AfterRegister(db, cfg, c.now, email, password, name, salt, user, session, token).1 == None then {session} else {}
      case Login(email, password, session) =>
        if AfterLogin(db, cfg, c.now, email, password, session).1 == None then {session} else {}
      case _ => {}
  }

  /** Every session a run starts by logging in or registering. */
  ghost function Started(db: AuthDb, cfg: Config, calls: seq<Timed>): set<Id>
    decreases |calls|
  {
    if calls == [] then {} else StartedBy(db, cfg, calls[0]) + Started(Step(db, cfg, calls[0]), cfg, calls[1..])
  }

  ghost predicate HasChains(sessions: map<Id, Session>, roots: set<Id>) {
    exists chains: map<Id, seq<Id>> :: Decomposed(sessions, chains) && chains.Keys == roots
  }

  lemma RefreshKeepsChains(db: AuthDb, cfg: Config, now: int, presented: Id, session: Id, roots: set<Id>)
    requires HasChains(db.sessions, roots) && FreshSession(db, session)
    ensures HasChains(AfterRefresh(db, cfg.refreshTtl, now, presented, session).0.sessions, roots)
  {
    hide Decomposed;
    var chains: map<Id, seq<Id>> :| Decomposed(db.sessions, chains) && chains.Keys == roots;
    var after := AfterRefresh(db, cfg.refreshTtl, now, presented, session).0;
    if presented != NIL_ID && presented in db.sessions {
      var s := db.sessions[presented];
      if Active(s) && now < s.expiresAt && s.user in db.users {
        var r := ChainOf(db.sessions, chains, presented);
        var retired := s.(revokedAt := Some(now), replacedBy := Some(session));
        var added := Session(s.user, now + cfg.refreshTtl, None, None);
        RefreshExtendsChain(db.sessions, chains, r, presented, session, retired, added);
        assert after.sessions == Rotated(db.sessions, presented, session, retired, added);
        assert Grown(chains, r, session).Keys == roots;
      } else {
        TailHasNoLink(db.sessions, chains, presented);
        RevokingKeepsChains(db.sessions, after.sessions, chains);
      }
    }
  }

  lemma ChainOf(sessions: map<Id, Session>, chains: map<Id, seq<Id>>, id: Id) returns (r: Id)
    requires Decomposed(sessions, chains) && id in sessions && Active(sessions[id])
    ensures r in chains && |chains[r]| > 0 && chains[r][|chains[r]| - 1] == id
  {
    hide AllOk, AllDisjoint;
    assert InSomeChain(chains, id);
    r :| r in chains && InChain(chains[r], id);
    hide AllCovered, Decomposed;
    var i: nat :| 0 <= i < |chains[r]| && chains[r][i] == id;
    OnlyTailsActive(sessions, chains, r, i);
  }

  lemma TailHasNoLink(sessions: map<Id, Session>, chains: map<Id, seq<Id>>, id: Id)
    requires Decomposed(sessions, chains) && id in sessions
    ensures Active(sessions[id]) ==> sessions[id].replacedBy == None
  {
    if Active(sessions[id]) {
      var r := ChainOf(sessions, chains, id);
      assert ChainOk(sessions, chains[r]);
    }
  }

  lemma LoginKeepsChains(db: AuthDb, cfg: Config, user: Id, now: int, session: Id, roots: set<Id>)
    requires HasChains(db.sessions, roots) && FreshSession(db, session)
    ensures HasChains(StartSession(db, cfg.refreshTtl, user, now, session).sessions, roots + {session})
  {
    hide Decomposed;
    var chains: map<Id, seq<Id>> :| Decomposed(db.sessions, chains) && chains.Keys == roots;
    LoginStartsChain(db.sessions, chains, session, Session(user, now + cfg.refreshTtl, None, None));
    assert chains[session := [session]].Keys == roots + {session};
  }

  lemma LogoutKeepsChains(db: AuthDb, now: int, presented: Id, roots: set<Id>)
    requires HasChains(db.sessions, roots)
    ensures HasChains(AfterLogout(db, now, presented).sessions, roots)
  {
    hide Decomposed;
    var chains: map<Id, seq<Id>> :| Decomposed(db.sessions, chains) && chains.Keys == roots;
    if presented in db.sessions {
      TailHasNoLink(db.sessions, chains, presented);
      RevokingKeepsChains(db.sessions, AfterLogout(db, now, presented).sessions, chains);
    }
  }

  lemma ResetKeepsChains(db: AuthDb, cfg: Config, now: int, token: Id, password: Password, salt: nat, roots: set<Id>)
    requires HasChains(db.sessions, roots)
    ensures HasChains(AfterReset(db, cfg, now, token, password, salt).0.sessions, roots)
  {
    hide Decomposed;
    var chains: map<Id, seq<Id>> :| Decomposed(db.sessions, chains) && chains.Keys == roots;
    RevokingKeepsChains(db.sessions, AfterReset(db, cfg, now, token, password, salt).0.sessions, chains);
  }

  lemma StepKeepsChains(db: AuthDb, cfg: Config, c: Timed, roots: set<Id>)
    requires HasChains(db.sessions, roots)
    ensures HasChains(Step(db, cfg, c).sessions, roots + StartedBy(db, cfg, c))
  {
    hide HasChains, ValidEmail, NormalizeEmail, Taken, ConsumeAll, Consume, RevokeAll, Revoke, OnCooldown, LiveToken, Text.TrimSpace;
    assert roots + {} == roots;
    if Possible(db, c.call) {
      match c.call
      case Register(email, password, name, salt, user, session, token) => LoginKeepsChains(db, cfg, user, c.now, session, roots);
      case Login(email, password, session) =>
        var found := UserWithEmail(db.users, NormalizeEmail(cfg.lib, email));
        if found.Some? { LoginKeepsChains(db, cfg, found.value, c.now, session, roots); }
      case Refresh(presented, session) => RefreshKeepsChains(db, cfg, c.now, presented, session, roots);
      case Logout(presented) => LogoutKeepsChains(db, c.now, presented, roots);
      case Reset(token, password, salt) => ResetKeepsChains(db, cfg, c.now, token, password, salt, roots);
      case _ =>
    }
  }

  /** Over any run, sessions form disjoint forward chains rooted at exactly the logins. */
  lemma {:induction false} RunKeepsChains(db: AuthDb, cfg: Config, calls: seq<Timed>, roots: set<Id>)
    requires HasChains(db.sessions, roots)
    ensures HasChains(Run(db, cfg, calls).sessions, roots + Started(db, cfg, calls))
    decreases |calls|
  {
    hide HasChains, Step, StartedBy;
    if calls == [] {
      assert roots + {} == roots;
    } else {
      StepKeepsChains(db, cfg, calls[0], roots);
      RunKeepsChains(Step(db, cfg, calls[0]), cfg, calls[1..], roots + StartedBy(db, cfg, calls[0]));
      assert roots + StartedBy(db, cfg, calls[0]) + Started(Step(db, cfg, calls[0]), cfg, calls[1..])
          == roots + Started(db, cfg, calls);
    }
  }

  /** From no accounts: the chains' roots are exactly the sessions that logins and registrations started. */
  lemma ChainsRootedAtLogins(cfg: Config, calls: seq<Timed>)
    ensures HasChains(Run(NO_ACCOUNTS, cfg, calls).sessions, Started(NO_ACCOUNTS, cfg, calls))
  {
    var chains: map<Id, seq<Id>> := map[];
    assert Decomposed(NO_ACCOUNTS.sessions, chains) && chains.Keys == {};
    RunKeepsChains(NO_ACCOUNTS, cfg, calls, {});
    assert {} + Started(NO_ACCOUNTS, cfg, calls) == Started(NO_ACCOUNTS, cfg, calls);
  }

  // --- reuse and reset ---------------------------------------------------------------------------

  ghost predicate NothingActive(sessions: map<Id, Session>, user: Id) {
    forall id :: id in sessions && sessions[id].user == user ==> !Active(sessions[id])
  }

  /** Sessions are never deleted, and a revoked one never changes again. */
  ghost predicate SessionsOnlyEnd(before: map<Id, Session>, after: map<Id, Session>) {
    forall id :: id in before ==>
      && id in after && after[id].user == before[id].user && after[id].expiresAt == before[id].expiresAt
      && (!Active(before[id]) ==> after[id] == before[id])
  }

  lemma StepOnlyEnds(db: AuthDb, cfg: Config, c: Timed)
    ensures SessionsOnlyEnd(db.sessions, Step(db, cfg, c).sessions)
  {
    hide ValidEmail, NormalizeEmail, UserWithEmail, Taken, OnCooldown, ConsumeAll, Consume;
    match c.call
    case Refresh(presented, session) => {}
    case _ => {}
  }

  lemma {:induction false} RunOnlyEnds(db: AuthDb, cfg: Config, calls: seq<Timed>)
    ensures SessionsOnlyEnd(db.sessions, Run(db, cfg, calls).sessions)
    decreases |calls|
  {
    hide Step;
    if calls != [] {
      StepOnlyEnds(db, cfg, calls[0]);
      RunOnlyEnds(Step(db, cfg, calls[0]), cfg, calls[1..]);
    }
  }

  /**
    A revoked token is poison for ever: however it was revoked and whatever happens since,
    presenting it is refused and leaves its user without an active session.
  */
  lemma ReuseRevokesEverything(db: AuthDb, cfg: Config, presented: Id, calls: seq<Timed>, later: int, other: Id)
    requires presented != NIL_ID && presented in db.sessions && !Active(db.sessions[presented])
    ensures var user := db.sessions[presented].user;
            var between := Run(db, cfg, calls);
            var (after, err) := AfterRefresh(between, cfg.refreshTtl, later, presented, other);
            && err == Some(InvalidRefreshToken)
            && NothingActive(after.sessions, user)
            && after.sessions.Keys == between.sessions.Keys
  {
    RunOnlyEnds(db, cfg, calls);
  }

  /** Refresh replaces one active session by one: exactly the presented one ends and the new one begins. */
  lemma RefreshSwapsOne(db: AuthDb, cfg: Config, now: int, presented: Id, session: Id, id: Id)
    requires AfterRefresh(db, cfg.refreshTtl, now, presented, session).1 == None && FreshSession(db, session)
    ensures var after := AfterRefresh(db, cfg.refreshTtl, now, presented, session).0.sessions;
            && session in after && Active(after[session]) && after[session].user == db.sessions[presented].user
            && !Active(after[presented]) && after[presented].replacedBy == Some(session)
            && (id in db.sessions && id != presented ==> id in after && after[id] == db.sessions[id])
            && after.Keys == db.sessions.Keys + {session}
  {
  }

  /** Exactly when a refresh succeeds. */
  lemma RefreshSucceedsIff(db: AuthDb, cfg: Config, now: int, presented: Id, session: Id)
    ensures AfterRefresh(db, cfg.refreshTtl, now, presented, session).1 == None
       <==> presented != NIL_ID && presented in db.sessions && Active(db.sessions[presented])
            && now < db.sessions[presented].expiresAt && db.sessions[presented].user in db.users
  {
  }

  /** A password reset leaves its user without an active session, and its token never works again. */
  lemma ResetEndsSessions(db: AuthDb, cfg: Config, now: int, token: Id, password: Password, salt: nat, calls: seq<Timed>,
                          later: int, again: Password, pepper: nat)
    requires AfterReset(db, cfg, now, token, password, salt).1 == None
    ensures var user := db.tokens[token].user;
            var after := AfterReset(db, cfg, now, token, password, salt).0;
            && NothingActive(after.sessions, user)
            && (user in db.users ==> user in after.users && after.users[user].passwordHash == cfg.lib.hash(password, salt))
            && AfterReset(Run(after, cfg, calls), cfg, later, token, again, pepper).1 != None
  {
    var after := AfterReset(db, cfg, now, token, password, salt).0;
    RunKeepsSpent(after, cfg, calls, token);
  }

  lemma StepKeepsSpent(db: AuthDb, cfg: Config, c: Timed, token: Id)
    requires token in db.tokens && db.tokens[token].consumed
    ensures var after := Step(db, cfg, c).tokens; token in after && after[token] == db.tokens[token]
  {
    hide ValidEmail, NormalizeEmail, UserWithEmail, Taken, RevokeAll, Revoke, OnCooldown, LiveToken, Text.TrimSpace;
    match c.call
    case Reset(_, _, _) => {}
    case Verify(_) => {}
    case _ => {}
  }

  lemma {:induction false} RunKeepsSpent(db: AuthDb, cfg: Config, calls: seq<Timed>, token: Id)
    requires token in db.tokens && db.tokens[token].consumed
    ensures var after := Run(db, cfg, calls).tokens; token in after && after[token] == db.tokens[token]
    decreases |calls|
  {
    hide Step;
    if calls != [] {
      StepKeepsSpent(db, cfg, calls[0], token);
      RunKeepsSpent(Step(db, cfg, calls[0]), cfg, calls[1..], token);
    }
  }

  // --- link tokens ---------------------------------------------------------------------------------

  /** Of a user's tokens for one purpose, at most one is unspent. */
  ghost predicate OneLinkEach(tokens: map<Id, AuthToken>) {
    forall i, j :: i in tokens && j in tokens && i != j && !tokens[i].consumed && !tokens[j].consumed ==>
      tokens[i].user != tokens[j].user || tokens[i].purpose != tokens[j].purpose
  }

  /** Issuing spends the earlier links of the purpose first. */
  lemma IssueKeepsOneLink(db: AuthDb, user: Id, purpose: Purpose, now: int, token: Id)
    requires OneLinkEach(db.tokens) && token !in db.tokens
    ensures OneLinkEach(Issue(db, user, purpose, now, token).tokens)
  {
  }

  lemma ConsumeKeepsOneLink(tokens: map<Id, AuthToken>, token: Id)
    requires OneLinkEach(tokens)
    ensures OneLinkEach(Consume(tokens, token))
  {
  }

  lemma StepKeepsOneLink(db: AuthDb, cfg: Config, c: Timed)
    requires OneLinkEach(db.tokens)
    ensures OneLinkEach(Step(db, cfg, c).tokens)
  {
    hide OneLinkEach, Issue, Consume, RevokeAll, Revoke, OnCooldown, LiveToken, ValidEmail, NormalizeEmail, Taken, Text.TrimSpace;
    if Possible(db, c.call) {
      match c.call
      case Register(email, password, name, salt, user, session, token) =>
        var stored := User(NormalizeEmail(cfg.lib, email), cfg.lib.hash(password, salt), Text.TrimSpace(name), false);
        IssueKeepsOneLink(db.(users := db.users[user := stored]), user, EmailVerification, c.now, token);
      case RequestReset(email, token) =>
        var found := UserWithEmail(db.users, NormalizeEmail(cfg.lib, email));
        if found.Some? { IssueKeepsOneLink(db, found.value, PasswordReset, c.now, token); }
      case Resend(user, token) => IssueKeepsOneLink(db, user, EmailVerification, c.now, token);
      case Reset(token, password, salt) => ConsumeKeepsOneLink(db.tokens, token);
      case Verify(token) => ConsumeKeepsOneLink(db.tokens, token);
      case _ =>
    }
  }

  lemma {:induction false} RunKeepsOneLink(db: AuthDb, cfg: Config, calls: seq<Timed>)
    requires OneLinkEach(db.tokens)
    ensures OneLinkEach(Run(db, cfg, calls).tokens)
    decreases |calls|
  {
    hide Step, OneLinkEach;
    if calls != [] {
      StepKeepsOneLink(db, cfg, calls[0]);
      RunKeepsOneLink(Step(db, cfg, calls[0]), cfg, calls[1..]);
    }
  }

  /** Submitting a verification link twice succeeds twice and changes nothing the second time. */
  lemma VerifyTwice(db: AuthDb, now: int, later: int, token: Id)
    requires AfterVerify(db, now, token).1 == None && now <= later
    requires token in db.tokens && db.tokens[token].user in db.users && db.tokens[token].purpose == EmailVerification
    ensures var once := AfterVerify(db, now, token).0;
            && once.users[db.tokens[token].user].verified
            && AfterVerify(once, later, token) == (once, None)
  {
  }
}
