/**
  Accounts, rotating refresh sessions and single-use link tokens
  (backend/internal/auth/service.go over backend/internal/db/sqlc/auth.sql.go).
  A session and a link token are addressed by their own opaque value, which is fresh
  whenever one is issued.  Lower-casing, address parsing and password hashing are library
  functions the service is given.
*/
module Sessions {
  import opened Options
  import opened UtcClock
  import opened Tables
  import Text

  /** Raw password bytes. */
  type Password = seq<bv8>

  /**
    `strings.ToLower`; whether `mail.ParseAddress` takes a text and gives the same bare address
    back; the salted password hash and its check.
  */
  datatype Library = Library(
    lower: string -> string, bareAddress: string -> bool,
    hash: (Password, nat) -> string, matches: (Password, string) -> bool)

  /** A hash matches the password it was made from and no other. */
  ghost predicate SoundHash(lib: Library) {
    forall p, q, salt :: lib.matches(p, lib.hash(q, salt)) <==> p == q
  }

  datatype Config = Config(refreshTtl: nat, lib: Library)

  datatype User = User(email: string, passwordHash: string, displayName: string, verified: bool)

  datatype Session = Session(user: Id, expiresAt: int, revokedAt: Option<int>, replacedBy: Option<Id>)

  datatype Purpose = PasswordReset | EmailVerification

  datatype AuthToken = AuthToken(user: Id, purpose: Purpose, createdAt: int, expiresAt: int, consumed: bool)

  datatype AuthDb = AuthDb(users: map<Id, User>, sessions: map<Id, Session>, tokens: map<Id, AuthToken>)

  datatype AuthError =
    | BadInput | EmailTaken | InvalidCredentials | InvalidRefreshToken | InvalidToken | AlreadyVerified | UserNotFound

  const MIN_PASSWORD: nat := 8
  const RESET_TTL: int := 3600 * SECOND
  const VERIFY_TTL: int := 24 * 3600 * SECOND
  const RESEND_COOLDOWN: int := 60 * SECOND

  function Lifetime(p: Purpose): int {
    if p == PasswordReset then RESET_TTL else VERIFY_TTL
  }

  predicate Active(s: Session) {
    s.revokedAt.None?
  }

  // --- addresses -------------------------------------------------------------------------

  /** `normalizeEmail`. */
  function NormalizeEmail(lib: Library, email: string): string {
    lib.lower(Text.TrimSpace(email))
  }

  /** The part after the last at sign. */
  function Domain(s: string): (d: string)
    ensures '@' !in d && |d| <= |s| && s[|s| - |d|..] == d
    ensures '@' in s ==> |d| < |s| && s[|s| - |d| - 1] == '@'
  {
    if s == [] || s[|s| - 1] == '@' then []
    else Domain(s[..|s| - 1]) + [s[|s| - 1]]
  }

  /** `validEmail` on a normalized address. */
  predicate ValidEmail(lib: Library, s: string) {
    3 <= Text.ByteLength(s) <= 254 && '@' in s && lib.bareAddress(s) && '.' in Domain(s)
  }

  // --- statements ------------------------------------------------------------------------

  predicate Taken(users: map<Id, User>, email: string) {
    exists u :: u in users && users[u].email == email
  }

  /** The unique index on addresses. */
  ghost predicate EmailsUnique(users: map<Id, User>) {
    forall u, v :: u in users && v in users && users[u].email == users[v].email ==> u == v
  }

  /** GetUserByEmail. */
  ghost function UserWithEmail(users: map<Id, User>, email: string): (found: Option<Id>)
    ensures found.None? <==> !Taken(users, email)
    ensures found.Some? ==> found.value in users && users[found.value].email == email
  {
    if Taken(users, email) then
      var u :| u in users && users[u].email == email;
      Some(u)
    else None
  }

  lemma NewAddressIsUnique(users: map<Id, User>, user: Id, row: User)
    requires EmailsUnique(users) && user !in users && !Taken(users, row.email)
    ensures EmailsUnique(users[user := row])
  {
  }

  /** RevokeSession: no effect on an unknown or already revoked session. */
  function Revoke(sessions: map<Id, Session>, id: Id, now: int, replacedBy: Option<Id>): map<Id, Session> {
    if id in sessions && Active(sessions[id])
    then sessions[id := sessions[id].(revokedAt := Some(now), replacedBy := replacedBy)]
    else sessions
  }

  /** RevokeAllUserSessions: every still-active session of the user. */
  function RevokeAll(sessions: map<Id, Session>, user: Id, now: int): map<Id, Session> {
    map id | id in sessions ::
      if sessions[id].user == user && Active(sessions[id]) then sessions[id].(revokedAt := Some(now)) else sessions[id]
  }

  /** ConsumeUserAuthTokens. */
  function ConsumeAll(tokens: map<Id, AuthToken>, user: Id, purpose: Purpose): map<Id, AuthToken> {
    map id | id in tokens ::
      if tokens[id].user == user && tokens[id].purpose == purpose then tokens[id].(consumed := true) else tokens[id]
  }

  /** ConsumeAuthToken. */
  function Consume(tokens: map<Id, AuthToken>, id: Id): map<Id, AuthToken> {
    if id in tokens then tokens[id := tokens[id].(consumed := true)] else tokens
  }

  /** GetLiveAuthToken. */
  predicate LiveToken(tokens: map<Id, AuthToken>, id: Id, purpose: Purpose, now: int) {
    id in tokens && tokens[id].purpose == purpose && !tokens[id].consumed && now < tokens[id].expiresAt
  }

  /** LatestAuthTokenAt within the cooldown: some unconsumed token of the purpose is younger than a minute. */
  predicate OnCooldown(tokens: map<Id, AuthToken>, user: Id, purpose: Purpose, now: int) {
    exists id :: id in tokens && tokens[id].user == user && tokens[id].purpose == purpose && !tokens[id].consumed
                 && tokens[id].createdAt >= SECOND && now - tokens[id].createdAt < RESEND_COOLDOWN
  }

  /** Earlier links of the purpose stop working, then the new one is stored. */
  function Issue(db: AuthDb, user: Id, purpose: Purpose, now: int, token: Id): AuthDb {
    db.(tokens := ConsumeAll(db.tokens, user, purpose)[token := AuthToken(user, purpose, now, now + Lifetime(purpose), false)])
  }

  function StartSession(db: AuthDb, refreshTtl: nat, user: Id, now: int, session: Id): AuthDb {
    db.(sessions := db.sessions[session := Session(user, now + refreshTtl, None, None)])
  }

  const NO_ACCOUNTS: AuthDb := AuthDb(map[], map[], map[])

  // --- the service's calls -----------------------------------------------------------------

  /** `Register`: the address, password and name checks, then store the account, mail its link, log it in. */
  function AfterRegister(db: AuthDb, cfg: Config, now: int, email: string, password: Password, displayName: string, salt: nat,
                         user: Id, session: Id, token: Id): (AuthDb, Option<AuthError>)
  {
    var address, name := NormalizeEmail(cfg.lib, email), Text.TrimSpace(displayName);
    if !ValidEmail(cfg.lib, address) then (db, Some(BadInput))
    else if |password| < MIN_PASSWORD then (db, Some(BadInput))
    else if name == "" then (db, Some(BadInput))
    else if Taken(db.users, address) then (db, Some(EmailTaken))
    else
      var stored := db.(users := db.users[user := User(address, cfg.lib.hash(password, salt), name, false)]);
      (StartSession(Issue(stored, user, EmailVerification, now, token), cfg.refreshTtl, user, now, session), None)
  }

  /** `Login`: one refusal for an unknown address and a wrong password alike. */
  ghost function AfterLogin(db: AuthDb, cfg: Config, now: int, email: string, password: Password, session: Id)
    : (AuthDb, Option<AuthError>)
  {
    match UserWithEmail(db.users, NormalizeEmail(cfg.lib, email))
    case None => (db, Some(InvalidCredentials))
    case Some(u) =>
      if !cfg.lib.matches(password, db.users[u].passwordHash) then (db, Some(InvalidCredentials))
      else (StartSession(db, cfg.refreshTtl, u, now, session), None)
  }

  /** `Refresh`: rotate; a revoked token presented again revokes everything the user has. */
  function AfterRefresh(db: AuthDb, refreshTtl: nat, now: int, presented: Id, session: Id): (AuthDb, Option<AuthError>) {
    if presented == NIL_ID || presented !in db.sessions then (db, Some(InvalidRefreshToken))
    else
      var s := db.sessions[presented];
      if !Active(s) then (db.(sessions := RevokeAll(db.sessions, s.user, now)), Some(InvalidRefreshToken))
      else if s.expiresAt <= now then (db.(sessions := Revoke(db.sessions, presented, now, None)), Some(InvalidRefreshToken))
      else if s.user !in db.users then (db, Some(InvalidRefreshToken))
      else
        var started := StartSession(db, refreshTtl, s.user, now, session);
        (started.(sessions := Revoke(started.sessions, presented, now, Some(session))), None)
  }

  function AfterLogout(db: AuthDb, now: int, presented: Id): AuthDb {
    if presented == NIL_ID || presented !in db.sessions then db
    else db.(sessions := Revoke(db.sessions, presented, now, None))
  }

  /** `RequestPasswordReset`: the caller is told nothing either way. */
  ghost function AfterResetRequest(db: AuthDb, cfg: Config, now: int, email: string, token: Id): AuthDb {
    var address := NormalizeEmail(cfg.lib, email);
    if !ValidEmail(cfg.lib, address) then db
    else
      match UserWithEmail(db.users, address)
      case None => db
      case Some(u) => if OnCooldown(db.tokens, u, PasswordReset, now) then db else Issue(db, u, PasswordReset, now, token)
  }

  /** `ResetPassword`: new password, token spent, every session revoked, together. */
  function AfterReset(db: AuthDb, cfg: Config, now: int, token: Id, password: Password, salt: nat): (AuthDb, Option<AuthError>) {
    if |password| < MIN_PASSWORD then (db, Some(BadInput))
    else if !LiveToken(db.tokens, token, PasswordReset, now) then (db, Some(InvalidToken))
    else
      var user := db.tokens[token].user;
      var hash := cfg.lib.hash(password, salt);
      var users := if user in db.users then db.users[user := db.users[user].(passwordHash := hash)] else db.users;
      (AuthDb(users, RevokeAll(db.sessions, user, now), Consume(db.tokens, token)), None)
  }

  /** `VerifyEmail`: a spent token of an already verified account still succeeds. */
  function AfterVerify(db: AuthDb, now: int, token: Id): (AuthDb, Option<AuthError>) {
    if !LiveToken(db.tokens, token, EmailVerification, now) then
      if token in db.tokens && db.tokens[token].purpose == EmailVerification
         && db.tokens[token].user in db.users && db.users[db.tokens[token].user].verified
      then (db, None)
      else (db, Some(InvalidToken))
    else
      var user := db.tokens[token].user;
      var users := if user in db.users then db.users[user := db.users[user].(verified := true)] else db.users;
      (AuthDb(users, db.sessions, Consume(db.tokens, token)), None)
  }

  function AfterResend(db: AuthDb, now: int, user: Id, token: Id): (AuthDb, Option<AuthError>) {
    if user !in db.users then (db, Some(UserNotFound))
    else if db.users[user].verified then (db, Some(AlreadyVerified))
    else if OnCooldown(db.tokens, user, EmailVerification, now) then (db, None)
    else (Issue(db, user, EmailVerification, now, token), None)
  }

  /** The auth service over its three tables. */
  class AuthService {
    const cfg: Config
    var users: map<Id, User>
    var sessions: map<Id, Session>
    var tokens: map<Id, AuthToken>

    function Contents(): AuthDb
      reads this
    {
      AuthDb(users, sessions, tokens)
    }

    ghost predicate Valid()
      reads this
    {
      EmailsUnique(users)
    }

    constructor (cfg: Config)
      ensures this.cfg == cfg && Contents() == NO_ACCOUNTS && Valid()
    {
      this.cfg := cfg;
      users, sessions, tokens := map[], map[], map[];
    }

    method UserByEmail(email: string) returns (found: Option<Id>)
      requires Valid()
      ensures found == UserWithEmail(users, email)
    {
      if exists u :: u in users && users[u].email == email {
        var u :| u in users && users[u].email == email;
        return Some(u);
      }
      return None;
    }

    method CreateSession(user: Id, now: int, session: Id)
      modifies this`sessions
      ensures Contents() == StartSession(old(Contents()), cfg.refreshTtl, user, now, session)
    {
      sessions := sessions[session := Session(user, now + cfg.refreshTtl, None, None)];
    }

    method RevokeSession(id: Id, now: int, replacedBy: Option<Id>)
      modifies this`sessions
      ensures sessions == Revoke(old(sessions), id, now, replacedBy)
    {
      if id in sessions && sessions[id].revokedAt.None? {
        sessions := sessions[id := sessions[id].(revokedAt := Some(now), replacedBy := replacedBy)];
      }
    }

    method RevokeAllUserSessions(user: Id, now: int)
      modifies this`sessions
      ensures sessions == RevokeAll(old(sessions), user, now)
    {
      sessions := map id | id in sessions ::
        if sessions[id].user == user && sessions[id].revokedAt.None? then sessions[id].(revokedAt := Some(now)) else sessions[id];
    }

    method IssueToken(user: Id, purpose: Purpose, now: int, token: Id)
      modifies this`tokens
      ensures Contents() == Issue(old(Contents()), user, purpose, now, token)
    {
      tokens := map id | id in tokens ::
        if tokens[id].user == user && tokens[id].purpose == purpose then tokens[id].(consumed := true) else tokens[id];
      tokens := tokens[token := AuthToken(user, purpose, now, now + Lifetime(purpose), false)];
    }

    method Register(now: int, email: string, password: Password, displayName: string, salt: nat, user: Id, session: Id, token: Id)
      returns (err: Option<AuthError>)
      requires Valid() && user !in users
      modifies this
      ensures Valid()
      ensures (Contents(), err)
           == AfterRegister(old(Contents()), cfg, now, email, password, displayName, salt, user, session, token)
    {
      hide ValidEmail, Text.TrimSpace, EmailsUnique, Taken, ConsumeAll;
      var address := cfg.lib.lower(Text.TrimSpace(email));
      var name := Text.TrimSpace(displayName);
      if !ValidEmail(cfg.lib, address) {
        return Some(BadInput);
      }
      if |password| < MIN_PASSWORD {
        return Some(BadInput);
      }
      if name == "" {
        return Some(BadInput);
      }
      var hash := cfg.lib.hash(password, salt);
      var taken := UserByEmail(address);
      if taken.Some? {
        return Some(EmailTaken);
      }
      NewAddressIsUnique(users, user, User(address, hash, name, false));
      users := users[user := User(address, hash, name, false)];
      IssueToken(user, EmailVerification, now, token);
      CreateSession(user, now, session);
      return None;
    }

    method Login(now: int, email: string, password: Password, session: Id) returns (err: Option<AuthError>)
      requires Valid()
      modifies this`sessions
      ensures (Contents(), err) == AfterLogin(old(Contents()), cfg, now, email, password, session)
    {
      var address := cfg.lib.lower(Text.TrimSpace(email));
      var user := UserByEmail(address);
      if user.None? {
        return Some(InvalidCredentials);
      }
      if !cfg.lib.matches(password, users[user.value].passwordHash) {
        return Some(InvalidCredentials);
      }
      CreateSession(user.value, now, session);
      return None;
    }

    method Refresh(now: int, presented: Id, session: Id) returns (err: Option<AuthError>)
      modifies this`sessions
      ensures (Contents(), err) == AfterRefresh(old(Contents()), cfg.refreshTtl, now, presented, session)
    {
      if presented == NIL_ID || presented !in sessions {
        return Some(InvalidRefreshToken);
      }
      var s := sessions[presented];
      if s.revokedAt.Some? {
        RevokeAllUserSessions(s.user, now);
        return Some(InvalidRefreshToken);
      }
      if s.expiresAt <= now {
        RevokeSession(presented, now, None);
        return Some(InvalidRefreshToken);
      }
      if s.user !in users {
        return Some(InvalidRefreshToken);
      }
      CreateSession(s.user, now, session);
      RevokeSession(presented, now, Some(session));
      return None;
    }

    method Logout(now: int, presented: Id)
      modifies this`sessions
      ensures Contents() == AfterLogout(old(Contents()), now, presented)
    {
      if presented == NIL_ID || presented !in sessions {
        return;
      }
      RevokeSession(presented, now, None);
    }

    method ResetPassword(now: int, token: Id, password: Password, salt: nat) returns (err: Option<AuthError>)
      requires Valid()
      modifies this
      ensures Valid()
      ensures (Contents(), err) == AfterReset(old(Contents()), cfg, now, token, password, salt)
      ensures forall u :: u in old(users) && !(err == None && token in old(tokens) && u == old(tokens[token]).user) ==>
                u in users && users[u] == old(users)[u]
    {
      if |password| < MIN_PASSWORD {
        return Some(BadInput);
      }
      if !LiveToken(tokens, token, PasswordReset, now) {
        return Some(InvalidToken);
      }
      var user := tokens[token].user;
      if user in users {
        users := users[user := users[user].(passwordHash := cfg.lib.hash(password, salt))];
      }
      tokens := tokens[token := tokens[token].(consumed := true)];
      RevokeAllUserSessions(user, now);
      return None;
    }

    /** Nothing is returned, so the answer is the same whether or not the address has an account. */
    method RequestPasswordReset(now: int, email: string, token: Id)
      requires Valid()
      modifies this`tokens
      ensures Contents() == AfterResetRequest(old(Contents()), cfg, now, email, token)
    {
      var address := cfg.lib.lower(Text.TrimSpace(email));
      if !ValidEmail(cfg.lib, address) {
        return;
      }
      var user := UserByEmail(address);
      if user.None? || OnCooldown(tokens, user.value, PasswordReset, now) {
        return;
      }
      IssueToken(user.value, PasswordReset, now, token);
    }

    method VerifyEmail(now: int, token: Id) returns (err: Option<AuthError>)
      requires Valid()
      modifies this
      ensures Valid()
      ensures (Contents(), err) == AfterVerify(old(Contents()), now, token)
    {
      if !LiveToken(tokens, token, EmailVerification, now) {
        if token in tokens && tokens[token].purpose == EmailVerification {
          var owner := tokens[token].user;
          if owner in users && users[owner].verified {
            return None;
          }
        }
        return Some(InvalidToken);
      }
      var user := tokens[token].user;
      if user in users {
        users := users[user := users[user].(verified := true)];
      }
      tokens := tokens[token := tokens[token].(consumed := true)];
      return None;
    }

    method ResendEmailVerification(now: int, user: Id, token: Id) returns (err: Option<AuthError>)
      modifies this`tokens
      ensures (Contents(), err) == AfterResend(old(Contents()), now, user, token)
    {
      if user !in users {
        return Some(UserNotFound);
      }
      if users[user].verified {
        return Some(AlreadyVerified);
      }
      if OnCooldown(tokens, user, EmailVerification, now) {
        return None;
      }
      IssueToken(user, EmailVerification, now, token);
      return None;
    }
  }
}
