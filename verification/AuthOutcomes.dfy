/**
  What each auth call promises its caller: exactly when it succeeds, everything it leaves
  behind, and what works afterwards (backend/internal/auth/service.go).
*/
module AuthOutcomes {
  import opened Options
  import opened UtcClock
  import opened Tables
  import opened Sessions
  import opened SessionChains
  import Text

  const HOUR: int := 3_600_000_000_000

  // --- one account per address ---------------------------------------------------------------

  lemma SameAddress(users: map<Id, User>, u: Id, row: User)
    requires EmailsUnique(users) && u in users && row.email == users[u].email
    ensures EmailsUnique(users[u := row])
  {
  }

  /** Only registering adds an account, and only under an address nobody has. */
  lemma StepKeepsEmails(db: AuthDb, cfg: Config, c: Timed)
    requires EmailsUnique(db.users)
    ensures EmailsUnique(Step(db, cfg, c).users)
  {
    hide EmailsUnique, ValidEmail, NormalizeEmail, Taken, OnCooldown, ConsumeAll, Consume, RevokeAll, Revoke, Text.TrimSpace;
    match c.call
    case Register(email, password, name, salt, user, session, token) =>
      var row := User(NormalizeEmail(cfg.lib, email), cfg.lib.hash(password, salt), Text.TrimSpace(name), false);
      if user !in db.users && !Taken(db.users, row.email) { NewAddressIsUnique(db.users, user, row); }
    case Reset(token, password, salt) =>
      if token in db.tokens && db.tokens[token].user in db.users {
        var u := db.tokens[token].user;
        SameAddress(db.users, u, db.users[u].(passwordHash := cfg.lib.hash(password, salt)));
      }
    case Verify(token) =>
      if token in db.tokens && db.tokens[token].user in db.users {
        var u := db.tokens[token].user;
        SameAddress(db.users, u, db.users[u].(verified := true));
      }
    case _ =>
  }

  lemma {:induction false} RunKeepsEmails(db: AuthDb, cfg: Config, calls: seq<Timed>)
    requires EmailsUnique(db.users)
    ensures EmailsUnique(Run(db, cfg, calls).users)
    decreases |calls|
  {
    hide Step, EmailsUnique;
    if calls != [] {
      StepKeepsEmails(db, cfg, calls[0]);
      RunKeepsEmails(Step(db, cfg, calls[0]), cfg, calls[1..]);
    }
  }

  /** With unique addresses a lookup finds the one account. */
  lemma LookupFinds(users: map<Id, User>, u: Id)
    requires EmailsUnique(users) && u in users
    ensures UserWithEmail(users, users[u].email) == Some(u)
  {
    assert Taken(users, users[u].email);
  }

  // --- register ------------------------------------------------------------------------------

  /** What an applicant must send. */
  predicate Admissible(cfg: Config, email: string, password: Password, displayName: string) {
    && ValidEmail(cfg.lib, cfg.lib.lower(Text.TrimSpace(email))) && |password| >= 8
    && Text.TrimSpace(displayName) != ""
  }

  /** The link is the only live one of its owner and purpose; every other token is as it was, or spent with them. */
  ghost predicate OnlyLink(before: map<Id, AuthToken>, after: map<Id, AuthToken>, user: Id, purpose: Purpose, now: int, token: Id) {
    && token in after && after[token] == AuthToken(user, purpose, now, now + (if purpose == PasswordReset then HOUR else 24 * HOUR), false)
    && after.Keys == before.Keys + {token}
    && forall t :: t in before && t != token ==>
         after[t] == if before[t].user == user && before[t].purpose == purpose then before[t].(consumed := true) else before[t]
  }

  /**
    Registering succeeds exactly with an admissible application for an address nobody has;
    then one unverified account, one live verification link and one session appear.
  */
  lemma RegisterOutcome(db: AuthDb, cfg: Config, now: int, email: string, password: Password, displayName: string, salt: nat,
                        user: Id, session: Id, token: Id)
    requires user !in db.users && session !in db.sessions && token !in db.tokens
    ensures var (after, err) := AfterRegister(db, cfg, now, email, password, displayName, salt, user, session, token);
            var address := cfg.lib.lower(Text.TrimSpace(email));
            && (err == None <==>
                  Admissible(cfg, email, password, displayName) && forall u :: u in db.users ==> db.users[u].email != address)
            && (err == None ==>
                  && after.users == db.users[user := User(address, cfg.lib.hash(password, salt), Text.TrimSpace(displayName), false)]
                  && after.sessions == db.sessions[session := Session(user, now + cfg.refreshTtl, None, None)]
                  && OnlyLink(db.tokens, after.tokens, user, EmailVerification, now, token))
            && (err != None ==> after == db)
            && (err == Some(BadInput) <==> !Admissible(cfg, email, password, displayName))
            && (err.Some? ==> err.value in {BadInput, EmailTaken})
  {
    hide ValidEmail, Text.TrimSpace;
  }

  /** Whoever registered can log in with that password and no other, and their link verifies them for a day. */
  lemma RegisteredCanLogIn(db: AuthDb, cfg: Config, now: int, email: string, password: Password, displayName: string, salt: nat,
                           user: Id, session: Id, token: Id, later: int, tried: Password, next: Id)
    requires SoundHash(cfg.lib) && EmailsUnique(db.users) && user !in db.users
    requires AfterRegister(db, cfg, now, email, password, displayName, salt, user, session, token).1 == None
    ensures var after := AfterRegister(db, cfg, now, email, password, displayName, salt, user, session, token).0;
            && (AfterLogin(after, cfg, later, email, tried, next).1 == None <==> tried == password)
            && (now <= later < now + 24 * HOUR ==>
                  && AfterVerify(after, later, token).1 == None
                  && AfterVerify(after, later, token).0.users[user].verified)
            && (now + 24 * HOUR <= later ==> AfterVerify(after, later, token).1 == Some(InvalidToken))
  {
    hide ValidEmail, NormalizeEmail, Text.TrimSpace, ConsumeAll;
    var after := AfterRegister(db, cfg, now, email, password, displayName, salt, user, session, token).0;
    assert after.users[user].email == NormalizeEmail(cfg.lib, email);
    LookupFinds(after.users, user);
  }

  // --- login and logout ------------------------------------------------------------------------

  /**
    Logging in succeeds exactly with the password of the account at that address, starts one
    session and touches nothing else; every refusal looks alike.
  */
  lemma LoginOutcome(db: AuthDb, cfg: Config, now: int, email: string, password: Password, session: Id)
    requires EmailsUnique(db.users) && session !in db.sessions
    ensures var (after, err) := AfterLogin(db, cfg, now, email, password, session);
            && (err == None <==>
                  exists u :: u in db.users && db.users[u].email == cfg.lib.lower(Text.TrimSpace(email))
                              && cfg.lib.matches(password, db.users[u].passwordHash))
            && (err == None ==>
                  && session in after.sessions
                  && var u := after.sessions[session].user;
                     && u in db.users && db.users[u].email == cfg.lib.lower(Text.TrimSpace(email))
                     && after == db.(sessions := db.sessions[session := Session(u, now + cfg.refreshTtl, None, None)]))
            && (err != None ==> after == db && err == Some(InvalidCredentials))
  {
    hide Text.TrimSpace;
  }

  /** After a logout the session is over for good: no refresh of it succeeds. Other sessions are untouched. */
  lemma LogoutOutcome(db: AuthDb, cfg: Config, now: int, presented: Id, calls: seq<Timed>, later: int, next: Id)
    ensures var after := AfterLogout(db, now, presented);
            && after == db.(sessions := after.sessions) && after.sessions.Keys == db.sessions.Keys
            && (forall id :: id in db.sessions && id != presented ==> after.sessions[id] == db.sessions[id])
            && (presented != NIL_ID && presented in db.sessions ==>
                  && (var s := db.sessions[presented];
                      after.sessions[presented] == if s.revokedAt == None then Session(s.user, s.expiresAt, Some(now), None) else s)
                  && AfterRefresh(Run(after, cfg, calls), cfg.refreshTtl, later, presented, next).1 != None)
            && AfterLogout(after, later, presented) == after
  {
    var after := AfterLogout(db, now, presented);
    RunOnlyEnds(after, cfg, calls);
    assert presented != NIL_ID && presented in db.sessions ==> !Active(after.sessions[presented]);
  }

  // --- link requests -----------------------------------------------------------------------------

  /**
    A reset link is issued exactly for a known valid address off its cooldown, and then it is
    the only one that works.
  */
  lemma ResetRequestOutcome(db: AuthDb, cfg: Config, now: int, email: string, token: Id)
    requires token !in db.tokens
    ensures var after := AfterResetRequest(db, cfg, now, email, token);
            var address := cfg.lib.lower(Text.TrimSpace(email));
            var u := UserWithEmail(db.users, address);
            && after.users == db.users && after.sessions == db.sessions
            && (if ValidEmail(cfg.lib, address) && u.Some? && !OnCooldown(db.tokens, u.value, PasswordReset, now)
                then OnlyLink(db.tokens, after.tokens, u.value, PasswordReset, now, token)
                else after == db)
  {
    hide ValidEmail, OnCooldown, Text.TrimSpace;
  }

  /** A resent verification link likewise: exactly for an unverified account off its cooldown. */
  lemma ResendOutcome(db: AuthDb, cfg: Config, now: int, user: Id, token: Id)
    requires token !in db.tokens
    ensures var (after, err) := AfterResend(db, now, user, token);
            && after.users == db.users && after.sessions == db.sessions
            && err == (if user !in db.users then Some(UserNotFound)
                       else if db.users[user].verified then Some(AlreadyVerified) else None)
            && (if err == None && !OnCooldown(db.tokens, user, EmailVerification, now)
                then OnlyLink(db.tokens, after.tokens, user, EmailVerification, now, token)
                else after == db)
  {
    hide OnCooldown;
  }

  /**
    Asking again within a minute of an issue sends nothing, and a minute later does again
    (a clock still in its first second counts as no issue at all); other accounts and the
    other purpose are not held up.
  */
  lemma CooldownHolds(db: AuthDb, user: Id, purpose: Purpose, now: int, token: Id, later: int, other: Id, kind: Purpose)
    requires token !in db.tokens
    ensures var issued := Issue(db, user, purpose, now, token).tokens;
            && (OnCooldown(issued, user, purpose, later) <==> 1_000_000_000 <= now && later < now + 60_000_000_000)
            && (other != user || kind != purpose ==>
                  (OnCooldown(issued, other, kind, later) <==> OnCooldown(db.tokens, other, kind, later)))
  {
    hide Lifetime;
    var issued := Issue(db, user, purpose, now, token).tokens;
    assert token in issued;
    assert forall id :: id in db.tokens ==> id in issued;
  }

  /** What a well-formed address is: 3 to 254 bytes, one bare address, and a dot after its last at sign. */
  lemma ValidEmailMeans(lib: Library, s: string)
    ensures ValidEmail(lib, s)
       <==> && 3 <= Text.ByteLength(s) <= 254 && lib.bareAddress(s) && '@' in s
            && exists j :: 0 <= j < |s| && s[j] == '.' && '@' !in s[j..]
  {
    if '@' in s { DotInDomain(s); }
  }

  lemma LaterMember(s: string, j: nat, i: nat)
    requires j <= i < |s|
    ensures s[i] in s[j..]
  {
    assert s[j..][i - j] == s[i];
  }

  lemma DotInDomain(s: string)
    requires '@' in s
    ensures '.' in Domain(s) <==> exists j :: 0 <= j < |s| && s[j] == '.' && '@' !in s[j..]
  {
    var d := Domain(s);
    var k := |s| - |d|;
    assert s[k..] == d && s[k - 1] == '@';
    if '.' in d {
      var i :| 0 <= i < |d| && d[i] == '.';
      assert s[k + i] == '.' && s[k + i..] == d[i..];
    }
    forall j | 0 <= j < k ensures '@' in s[j..] {
      LaterMember(s, j, k - 1);
    }
    if j :| 0 <= j < |s| && s[j] == '.' && '@' !in s[j..] {
      assert d[j - k] == '.';
    }
  }

  /**
    A fresh reset link works for an hour and then never: used in time it sets the password,
    so that this password logs in, no other does, and every earlier session is over.
  */
  lemma ResetLinkWorksForAnHour(db: AuthDb, cfg: Config, now: int, email: string, token: Id, later: int,
                                password: Password, salt: nat, tried: Password, next: Id)
    requires SoundHash(cfg.lib) && EmailsUnique(db.users) && token !in db.tokens && |password| >= 8
    requires AfterResetRequest(db, cfg, now, email, token) != db
    ensures var asked := AfterResetRequest(db, cfg, now, email, token);
            var (after, err) := AfterReset(asked, cfg, later, token, password, salt);
            && (err == None <==> later < now + HOUR)
            && (err == None ==>
                  && (AfterLogin(after, cfg, later, email, tried, next).1 == None <==> tried == password)
                  && NothingActive(after.sessions, UserWithEmail(db.users, NormalizeEmail(cfg.lib, email)).value))
  {
    hide ValidEmail, NormalizeEmail, OnCooldown;
    ResetRequestOutcome(db, cfg, now, email, token);
    var u := UserWithEmail(db.users, NormalizeEmail(cfg.lib, email)).value;
    var asked := AfterResetRequest(db, cfg, now, email, token);
    var (after, err) := AfterReset(asked, cfg, later, token, password, salt);
    if err == None {
      assert after.users[u].email == NormalizeEmail(cfg.lib, email);
      assert EmailsUnique(after.users);
      LookupFinds(after.users, u);
    }
  }

  // --- refresh -------------------------------------------------------------------------------------

  /** Exactly the user's running sessions have ended, at `now`. */
  ghost predicate EndsSessionsOf(before: map<Id, Session>, after: map<Id, Session>, user: Id, now: int) {
    && after.Keys == before.Keys
    && forall id :: id in before ==>
         after[id] == if before[id].user == user && before[id].revokedAt == None
                      then Session(user, before[id].expiresAt, Some(now), before[id].replacedBy) else before[id]
  }

  /**
    Everything a refresh can leave: a rotated pair; for a revoked token, none of its user's
    sessions and all of everybody else's; for an expired one, that session ended.
  */
  lemma RefreshOutcome(db: AuthDb, cfg: Config, now: int, presented: Id, session: Id)
    requires FreshSession(db, session)
    ensures var (after, err) := AfterRefresh(db, cfg.refreshTtl, now, presented, session);
            && after == db.(sessions := after.sessions)
            && (err != None ==> err == Some(InvalidRefreshToken))
            && (if presented == NIL_ID || presented !in db.sessions then err != None && after == db
                else
                  var s := db.sessions[presented];
                  if s.revokedAt != None then err != None && EndsSessionsOf(db.sessions, after.sessions, s.user, now)
                  else if s.expiresAt <= now then
                    err != None && after.sessions == db.sessions[presented := Session(s.user, s.expiresAt, Some(now), None)]
                  else if s.user !in db.users then err != None && after == db
                  else
                    && err == None
                    && after.sessions == db.sessions[presented := Session(s.user, s.expiresAt, Some(now), Some(session))]
                                                    [session := Session(s.user, now + cfg.refreshTtl, None, None)])
  {
  }

  // --- spending a link -----------------------------------------------------------------------------

  /** The link was issued for this purpose, is unspent and has not run out. */
  predicate Usable(tokens: map<Id, AuthToken>, token: Id, purpose: Purpose, now: int) {
    && token in tokens && tokens[token].purpose == purpose && tokens[token].consumed == false
    && now < tokens[token].expiresAt
  }

  /** That one link is spent and no other has changed. */
  ghost predicate SpendsLink(before: map<Id, AuthToken>, after: map<Id, AuthToken>, token: Id) {
    && token in before
    && var t := before[token];
       after == before[token := AuthToken(t.user, t.purpose, t.createdAt, t.expiresAt, true)]
  }

  /**
    A reset succeeds exactly with a long enough password and a usable reset link.  Then its
    owner's password hash, the owner's running sessions and that link are all that changed;
    a refusal changes nothing.
  */
  lemma ResetOutcome(db: AuthDb, cfg: Config, now: int, token: Id, password: Password, salt: nat)
    ensures var (after, err) := AfterReset(db, cfg, now, token, password, salt);
            && err == (if |password| < 8 then Some(BadInput)
                       else if !Usable(db.tokens, token, PasswordReset, now) then Some(InvalidToken) else None)
            && (err != None ==> after == db)
            && (err == None ==>
                  var owner := db.tokens[token].user;
                  && SpendsLink(db.tokens, after.tokens, token)
                  && EndsSessionsOf(db.sessions, after.sessions, owner, now)
                  && after.users.Keys == db.users.Keys
                  && (forall u :: u in db.users && u != owner ==> after.users[u] == db.users[u])
                  && (owner in db.users ==>
                        var row := db.users[owner];
                        after.users[owner] == User(row.email, cfg.lib.hash(password, salt), row.displayName, row.verified)))
  {
  }

  /** Nobody else's login is affected by a reset, whatever password they try. */
  lemma ResetSparesOthers(db: AuthDb, cfg: Config, now: int, token: Id, password: Password, salt: nat,
                          email: string, tried: Password, later: int, session: Id)
    requires EmailsUnique(db.users) && AfterReset(db, cfg, now, token, password, salt).1 == None
    requires UserWithEmail(db.users, NormalizeEmail(cfg.lib, email)) != Some(db.tokens[token].user)
    ensures AfterLogin(AfterReset(db, cfg, now, token, password, salt).0, cfg, later, email, tried, session).1
         == AfterLogin(db, cfg, later, email, tried, session).1
  {
    hide NormalizeEmail, RevokeAll, Consume;
    var after := AfterReset(db, cfg, now, token, password, salt).0;
    var owner, address := db.tokens[token].user, NormalizeEmail(cfg.lib, email);
    if owner in db.users { SameAddress(db.users, owner, after.users[owner]); }
    if Taken(db.users, address) {
      var u := UserWithEmail(db.users, address).value;
      LookupFinds(after.users, u);
    } else {
      assert !Taken(after.users, address);
    }
  }

  /**
    Verifying succeeds exactly with a usable verification link, or one of an account already
    verified.  A usable one verifies its owner and is spent; otherwise nothing changes.
  */
  lemma VerifyOutcome(db: AuthDb, now: int, token: Id)
    ensures var (after, err) := AfterVerify(db, now, token);
            var usable := Usable(db.tokens, token, EmailVerification, now);
            && err == (if usable || (token in db.tokens && db.tokens[token].purpose == EmailVerification
                                     && db.tokens[token].user in db.users && db.users[db.tokens[token].user].verified)
                       then None else Some(InvalidToken))
            && (!usable ==> after == db)
            && (usable ==>
                  var owner := db.tokens[token].user;
                  && after.sessions == db.sessions && SpendsLink(db.tokens, after.tokens, token)
                  && after.users.Keys == db.users.Keys
                  && (forall u :: u in db.users && u != owner ==> after.users[u] == db.users[u])
                  && (owner in db.users ==>
                        var row := db.users[owner];
                        after.users[owner] == User(row.email, row.passwordHash, row.displayName, true)))
  {
  }
}
