/**
 Login, refresh-token rotation and logout (web/src/services/authService.js) over the stored
 sessions (web/src/services/sessionService.js). A signed refresh token is what is signed
 (web/src/services/tokenService.js): the user, the session, the claims copied from the user's
 record and the second, so two tokens of one session that agree in these are the same token;
 its hash is represented by the token itself. Every operation is one atomic step.
 */
module Sessions {
  import opened Options

  /** `claims` stands for the roles, permissions and other fields copied from the user's record. */
  datatype Token = Token(sub: string, sessionId: string, claims: string, iat: int)

  datatype Session = Session(userId: string, refreshTokenHash: Token, isActive: bool, revokedAt: Option<int>)

  datatype UserStatus = Invited | Active | Suspended | LockedOut | Disabled

  datatype User = User(status: UserStatus, failedLoginAttempts: nat, lockedUntil: Option<int>, claims: string)

  /** `issued` is a history variable: the refresh tokens handed out for each session. */
  datatype State = State(users: map<string, User>, sessions: map<string, Session>, issued: map<string, seq<Token>>)

  datatype Error = InvalidCredentials | AccountDisabled | AccountLocked | SessionRevoked | TokenInvalid
    | AuthRequired | SessionExists

  datatype Outcome = LoggedIn(token: Token) | Refreshed(token: Token) | Done | Refused(error: Error)

  const LOCK_SECONDS := 15 * 60

  // ---------------------------------------------------------------- stored sessions

  /** findSessionById and the hash comparison: the session takes this token. */
  predicate Accepts(s: Session, token: Token)
  {
    s.isActive && s.revokedAt.None? && s.refreshTokenHash == token
  }

  predicate IsLive(sessions: map<string, Session>, id: string)
  {
    id in sessions && sessions[id].isActive && sessions[id].revokedAt.None?
  }

  function Rotated(sessions: map<string, Session>, id: string, token: Token): map<string, Session>
  {
    if IsLive(sessions, id) then sessions[id := sessions[id].(refreshTokenHash := token)] else sessions
  }

  function Revoked(s: Session, now: int): Session
  {
    s.(isActive := false, revokedAt := Some(now))
  }

  function RevokedOne(sessions: map<string, Session>, id: string, now: int): map<string, Session>
  {
    if id in sessions && sessions[id].isActive then sessions[id := Revoked(sessions[id], now)] else sessions
  }

  function RevokedAll(sessions: map<string, Session>, userId: string, now: int): map<string, Session>
  {
    map id | id in sessions ::
      if sessions[id].userId == userId && sessions[id].isActive then Revoked(sessions[id], now) else sessions[id]
  }

  // ---------------------------------------------------------------- users

  predicate IsLocked(u: User, now: int)
  {
    (u.lockedUntil.Some? && u.lockedUntil.value > now) || u.status == LockedOut
  }

  function AfterFailure(u: User, now: int): User
  {
    var attempts := u.failedLoginAttempts + 1;
    if attempts >= 5 then
      u.(status := LockedOut, failedLoginAttempts := attempts, lockedUntil := Some(now + LOCK_SECONDS))
    else u.(failedLoginAttempts := attempts)
  }

  function AfterSuccess(u: User): User
  {
    u.(status := if u.status == LockedOut then Active else u.status, failedLoginAttempts := 0, lockedUntil := None)
  }

  // ---------------------------------------------------------------- the operations

  datatype Op =
    | Login(userId: string, passwordMatches: bool, sessionId: string, at: int)
    | Refresh(token: Token, at: int)
    | Logout(sessionId: string, at: int)
    | LogoutAll(userId: string, at: int)
    | ChangeClaims(userId: string, claims: string)

  /** A new session, created with a provisional token and rotated to one of its own at once. */
  function OpenSession(s: State, userId: string, sessionId: string, now: int): State
    requires userId in s.users
  {
    var user := AfterSuccess(s.users[userId]);
    var provisional := Token(userId, "pending-session", user.claims, now);
    var created := s.sessions[sessionId := Session(userId, provisional, true, None)];
    var own := Token(userId, sessionId, user.claims, now);
    State(s.users[userId := user], Rotated(created, sessionId, own), s.issued[sessionId := [own]])
  }

  function Apply(s: State, op: Op): (State, Outcome)
  {
    match op
    case Login(userId, passwordMatches, sessionId, at) =>
      if userId !in s.users then (s, Refused(InvalidCredentials))
      else
        var u := s.users[userId];
        if u.status == Disabled || u.status == Suspended then (s, Refused(AccountDisabled))
        else if IsLocked(u, at) then (s, Refused(AccountLocked))
        else if !passwordMatches then
          (s.(users := s.users[userId := AfterFailure(u, at)]), Refused(InvalidCredentials))
        else if sessionId in s.sessions then
          (s.(users := s.users[userId := AfterSuccess(u)]), Refused(SessionExists))
        else (OpenSession(s, userId, sessionId, at), LoggedIn(Token(userId, sessionId, u.claims, at)))
    case Refresh(token, at) =>
      if !IsLive(s.sessions, token.sessionId) then (s, Refused(SessionRevoked))
      else if s.sessions[token.sessionId].refreshTokenHash != token then (s, Refused(TokenInvalid))
      else if token.sub !in s.users then (s, Refused(AuthRequired))
      else
        var next := Token(token.sub, token.sessionId, s.users[token.sub].claims, at);
        var before := if token.sessionId in s.issued then s.issued[token.sessionId] else [];
        (s.(sessions := Rotated(s.sessions, token.sessionId, next),
            issued := s.issued[token.sessionId := before + [next]]),
         Refreshed(next))
    case Logout(sessionId, at) => (s.(sessions := RevokedOne(s.sessions, sessionId, at)), Done)
    case ChangeClaims(userId, claims) =>
      (if userId in s.users then s.(users := s.users[userId := s.users[userId].(claims := claims)]) else s, Done)
    case LogoutAll(userId, at) => (s.(sessions := RevokedAll(s.sessions, userId, at)), Done)
  }

  function Run(s: State, ops: seq<Op>): State
  {
    if ops == [] then s else Apply(Run(s, ops[..|ops| - 1]), ops[|ops| - 1]).0
  }

  // ---------------------------------------------------------------- the service

  class AuthService {
    var users: map<string, User>
    var sessions: map<string, Session>
    ghost var issued: map<string, seq<Token>>

    ghost function Contents(): State
      reads this
    {
      State(users, sessions, issued)
    }

    constructor (users: map<string, User>)
      ensures Contents() == State(users, map[], map[])
    {
      this.users, sessions, issued := users, map[], map[];
    }

    method CreateSession(userId: string, sessionId: string, refreshToken: Token)
      modifies this`sessions
      ensures sessions == old(sessions)[sessionId := Session(userId, refreshToken, true, None)]
    {
      sessions := sessions[sessionId := Session(userId, refreshToken, true, None)];
    }

    method RotateRefreshToken(sessionId: string, refreshToken: Token)
      modifies this`sessions
      ensures sessions == Rotated(old(sessions), sessionId, refreshToken)
    {
      if sessionId in sessions && sessions[sessionId].isActive && sessions[sessionId].revokedAt.None? {
        sessions := sessions[sessionId := sessions[sessionId].(refreshTokenHash := refreshToken)];
      }
    }

    method AuthenticateLocalUser(userId: string, passwordMatches: bool, sessionId: string, now: int)
      returns (r: Outcome)
      modifies this
      ensures (Contents(), r) == Apply(old(Contents()), Login(userId, passwordMatches, sessionId, now))
    {
      if userId !in users {
        return Refused(InvalidCredentials);
      }
      var user := users[userId];
      if user.status == Disabled || user.status == Suspended {
        return Refused(AccountDisabled);
      }
      if IsLocked(user, now) {
        return Refused(AccountLocked);
      }
      if !passwordMatches {
        users := users[userId := AfterFailure(user, now)];
        return Refused(InvalidCredentials);
      }
      users := users[userId := AfterSuccess(user)];
      if sessionId in sessions {
        return Refused(SessionExists);
      }
      CreateSession(userId, sessionId, Token(userId, "pending-session", user.claims, now));
      var rotated := Token(userId, sessionId, user.claims, now);
      RotateRefreshToken(sessionId, rotated);
      issued := issued[sessionId := [rotated]];
      return LoggedIn(rotated);
    }

    method RefreshSession(token: Token, now: int) returns (r: Outcome)
      modifies this
      ensures (Contents(), r) == Apply(old(Contents()), Refresh(token, now))
    {
      var id := token.sessionId;
      if id !in sessions || !sessions[id].isActive || sessions[id].revokedAt.Some? {
        return Refused(SessionRevoked);
      }
      if sessions[id].refreshTokenHash != token {
        return Refused(TokenInvalid);
      }
      if token.sub !in users {
        return Refused(AuthRequired);
      }
      var next := Token(token.sub, id, users[token.sub].claims, now);
      RotateRefreshToken(id, next);
      issued := issued[id := (if id in issued then issued[id] else []) + [next]];
      return Refreshed(next);
    }

    method Logout(sessionId: string, now: int)
      modifies this
      ensures Contents() == Apply(old(Contents()), Op.Logout(sessionId, now)).0
    {
      if sessionId in sessions && sessions[sessionId].isActive {
        sessions := sessions[sessionId := sessions[sessionId].(isActive := false, revokedAt := Some(now))];
      }
    }

    method RevokeAllSessions(userId: string, now: int)
      modifies this
      ensures Contents() == Apply(old(Contents()), LogoutAll(userId, now)).0
    {
      sessions := map id | id in sessions ::
        if sessions[id].userId == userId && sessions[id].isActive
        then sessions[id].(isActive := false, revokedAt := Some(now)) else sessions[id];
    }
  }

  // ---------------------------------------------------------------- every run

  /**
   A session is active exactly when it carries no revocation time, and the token it holds is
   the last one handed out for it: a token of this session and of its user.
   */
  ghost predicate SessionSound(s: State, id: string)
  {
    id in s.sessions ==>
      var session := s.sessions[id];
      (session.isActive <==> session.revokedAt.None?) &&
      id in s.issued && s.issued[id] != [] && session.refreshTokenHash == s.issued[id][|s.issued[id]| - 1] &&
      forall i :: 0 <= i < |s.issued[id]| ==> s.issued[id][i].sessionId == id && s.issued[id][i].sub == session.userId
  }

  ghost predicate Inv(s: State)
  {
    forall id :: SessionSound(s, id)
  }

  lemma StepKeepsInv(s: State, op: Op)
    requires Inv(s)
    ensures Inv(Apply(s, op).0)
  {
    var s' := Apply(s, op).0;
    forall id
      ensures SessionSound(s', id)
    {
      assert SessionSound(s, id);
    }
  }

  lemma {:induction false} RunKeepsInv(s: State, ops: seq<Op>)
    requires Inv(s)
    ensures Inv(Run(s, ops))
  {
    if ops != [] {
      RunKeepsInv(s, ops[..|ops| - 1]);
      StepKeepsInv(Run(s, ops[..|ops| - 1]), ops[|ops| - 1]);
    }
  }

  /**
   After every run of logins, refreshes and logouts, a session that was opened accepts
   exactly one token while it is not revoked, the last one rotated in, and no token at all
   once it is.
   */
  lemma AcceptsOnlyLastRotated(users: map<string, User>, ops: seq<Op>, id: string, token: Token)
    requires id in Run(State(users, map[], map[]), ops).sessions
    ensures var s := Run(State(users, map[], map[]), ops);
            (s.sessions[id].isActive <==> s.sessions[id].revokedAt.None?) &&
            id in s.issued && s.issued[id] != [] &&
            (Accepts(s.sessions[id], token) <==>
             s.sessions[id].revokedAt.None? && token == s.issued[id][|s.issued[id]| - 1])
  {
    RunKeepsInv(State(users, map[], map[]), ops);
    assert SessionSound(Run(State(users, map[], map[]), ops), id);
  }

  /** A refresh succeeds exactly with the token its session accepts, for a known user; then only the new one works. */
  lemma RefreshIffAccepted(s: State, token: Token, at: int)
    requires Inv(s)
    ensures var (s', r) := Apply(s, Refresh(token, at));
            (r.Refreshed? <==>
              token.sessionId in s.sessions && Accepts(s.sessions[token.sessionId], token) && token.sub in s.users) &&
            (r.Refreshed? ==> Accepts(s'.sessions[token.sessionId], r.token) &&
                              (Accepts(s'.sessions[token.sessionId], token) <==>
                               at == token.iat && s.users[token.sub].claims == token.claims))
  {
    assert SessionSound(s, token.sessionId);
  }

  /** The session an operation is about, if it is about one. */
  function Target(op: Op): Option<string>
  {
    match op
    case Login(_, _, sessionId, _) => Some(sessionId)
    case Refresh(token, _) => Some(token.sessionId)
    case Logout(sessionId, _) => Some(sessionId)
    case LogoutAll(_, _) => None
    case ChangeClaims(_, _) => None
  }

  /** A step changes no other session, except that a logout of all touches those of its own user. */
  lemma OtherSessionsUntouched(s: State, op: Op, id: string)
    requires id in s.sessions && Target(op) != Some(id)
    requires op.LogoutAll? ==> op.userId != s.sessions[id].userId
    ensures id in Apply(s, op).0.sessions && Apply(s, op).0.sessions[id] == s.sessions[id]
  {
  }

  /** A revoked session stays as it was revoked, over every run: it is never reactivated. */
  lemma {:induction false} NeverReactivated(s: State, ops: seq<Op>, id: string)
    requires Inv(s) && id in s.sessions && !s.sessions[id].isActive
    ensures id in Run(s, ops).sessions && Run(s, ops).sessions[id] == s.sessions[id]
  {
    if ops != [] {
      var n := |ops| - 1;
      NeverReactivated(s, ops[..n], id);
      RunKeepsInv(s, ops[..n]);
    }
  }

  // ---------------------------------------------------------------- what a login does

  /** The user exists and is neither disabled nor suspended. */
  predicate Enabled(s: State, userId: string)
  {
    userId in s.users && s.users[userId].status != Disabled && s.users[userId].status != Suspended
  }

  /** No lock is in force at that time, and the account is not marked as locked. */
  predicate Unlocked(s: State, userId: string, at: int)
  {
    userId in s.users && s.users[userId].status != LockedOut &&
    (s.users[userId].lockedUntil.Some? ==> s.users[userId].lockedUntil.value <= at)
  }

  /** A login succeeds exactly with the right password of an enabled, unlocked user and a fresh session id. */
  lemma LoginIff(s: State, userId: string, passwordMatches: bool, sessionId: string, at: int)
    ensures var r := Apply(s, Login(userId, passwordMatches, sessionId, at)).1;
            r.LoggedIn? <==>
            Enabled(s, userId) && Unlocked(s, userId, at) && passwordMatches && sessionId !in s.sessions
  {
  }

  /** Each refusal has its own cause. */
  lemma LoginRefusals(s: State, userId: string, passwordMatches: bool, sessionId: string, at: int)
    ensures var r := Apply(s, Login(userId, passwordMatches, sessionId, at)).1;
            (r == Refused(AccountDisabled) <==> userId in s.users && !Enabled(s, userId)) &&
            (r == Refused(AccountLocked) <==> Enabled(s, userId) && !Unlocked(s, userId, at)) &&
            (r == Refused(InvalidCredentials) <==>
              userId !in s.users || (Enabled(s, userId) && Unlocked(s, userId, at) && !passwordMatches)) &&
            (r == Refused(SessionExists) <==>
              Enabled(s, userId) && Unlocked(s, userId, at) && passwordMatches && sessionId in s.sessions)
  {
  }

  /**
   A successful login adds one session, which accepts exactly the token answered: a token of
   this user, session and second with the user's claims. Any other login leaves the sessions
   and the issued tokens as they were.
   */
  lemma LoginSessions(s: State, userId: string, passwordMatches: bool, sessionId: string, at: int, token: Token)
    ensures var (s', r) := Apply(s, Login(userId, passwordMatches, sessionId, at));
            if r.LoggedIn? then
              userId in s.users && r.token == Token(userId, sessionId, s.users[userId].claims, at) &&
              sessionId in s'.sessions && s'.sessions[sessionId].userId == userId &&
              (Accepts(s'.sessions[sessionId], token) <==> token == r.token) &&
              s'.sessions - {sessionId} == s.sessions && s'.issued == s.issued[sessionId := [r.token]]
            else s'.sessions == s.sessions && s'.issued == s.issued
  {
    var s' := Apply(s, Login(userId, passwordMatches, sessionId, at)).0;
    assert s'.sessions != s.sessions ==> s'.sessions - {sessionId} == s.sessions;
  }

  /**
   A login changes no other user. A wrong password of a user who may log in is counted, and
   the fifth locks the account for fifteen minutes; a right one clears the count and the lock.
   */
  lemma LoginUsers(s: State, userId: string, passwordMatches: bool, sessionId: string, at: int)
    ensures var s' := Apply(s, Login(userId, passwordMatches, sessionId, at)).0;
            if !Enabled(s, userId) || !Unlocked(s, userId, at) then s'.users == s.users
            else
              userId in s'.users && s'.users - {userId} == s.users - {userId} &&
              var u, u' := s.users[userId], s'.users[userId];
              u'.claims == u.claims &&
              if passwordMatches then u'.status == u.status && u'.failedLoginAttempts == 0 && u'.lockedUntil == None
              else
                u'.failedLoginAttempts == u.failedLoginAttempts + 1 &&
                if u.failedLoginAttempts < 4 then u'.status == u.status && u'.lockedUntil == u.lockedUntil
                else u'.status == LockedOut && u'.lockedUntil == Some(at + 900)
  {
  }

  // ---------------------------------------------------------------- what a refresh and a logout do

  /** Each refusal of a refresh has its own cause, and changes nothing. */
  lemma RefreshRefusals(s: State, token: Token, at: int)
    ensures var (s', r) := Apply(s, Refresh(token, at));
            var live := token.sessionId in s.sessions && s.sessions[token.sessionId].isActive &&
                        s.sessions[token.sessionId].revokedAt.None?;
            (r == Refused(SessionRevoked) <==> !live) &&
            (r == Refused(TokenInvalid) <==> live && s.sessions[token.sessionId].refreshTokenHash != token) &&
            (r == Refused(AuthRequired) <==>
              live && s.sessions[token.sessionId].refreshTokenHash == token && token.sub !in s.users) &&
            (r.Refused? ==> s' == s)
  {
  }

  /** A refresh hands out a token of the same user and session, of this second and with the claims of now. */
  lemma RefreshRotates(s: State, token: Token, at: int)
    requires Apply(s, Refresh(token, at)).1.Refreshed?
    ensures var (s', r) := Apply(s, Refresh(token, at));
            token.sub in s.users && r.token == Token(token.sub, token.sessionId, s.users[token.sub].claims, at) &&
            s'.users == s.users && s'.sessions.Keys == s.sessions.Keys && token.sessionId in s.sessions &&
            s'.sessions[token.sessionId] == s.sessions[token.sessionId].(refreshTokenHash := r.token)
  {
  }

  /** A change of the user's claims is in the next token, and leaves every session as it is. */
  lemma ChangedClaimsShow(s: State, token: Token, claims: string, at: int)
    requires token.sub in s.users && token.sessionId in s.sessions && Accepts(s.sessions[token.sessionId], token)
    ensures var changed := Apply(s, ChangeClaims(token.sub, claims)).0;
            changed.sessions == s.sessions && changed.issued == s.issued &&
            Apply(changed, Refresh(token, at)).1 == Refreshed(Token(token.sub, token.sessionId, claims, at))
  {
  }

  /** After a logout the session takes no token; all else is as it was, an inactive session included. */
  lemma LogoutEnds(s: State, sessionId: string, at: int, token: Token)
    ensures var s' := Apply(s, Logout(sessionId, at)).0;
            s'.users == s.users && s'.issued == s.issued && s'.sessions.Keys == s.sessions.Keys &&
            s'.sessions - {sessionId} == s.sessions - {sessionId} &&
            (sessionId in s.sessions ==>
              !Accepts(s'.sessions[sessionId], token) &&
              s'.sessions[sessionId] ==
                if s.sessions[sessionId].isActive
                then s.sessions[sessionId].(isActive := false, revokedAt := Some(at)) else s.sessions[sessionId])
  {
  }

  /** After a logout of all no session of the user takes any token; the sessions of others are as they were. */
  lemma LogoutAllEnds(s: State, userId: string, at: int, id: string, token: Token)
    requires id in s.sessions
    ensures var s' := Apply(s, LogoutAll(userId, at)).0;
            s'.users == s.users && s'.issued == s.issued && s'.sessions.Keys == s.sessions.Keys &&
            if s.sessions[id].userId == userId then
              !Accepts(s'.sessions[id], token) &&
              (s.sessions[id].isActive ==> s'.sessions[id].revokedAt == Some(at)) &&
              (!s.sessions[id].isActive ==> s'.sessions[id] == s.sessions[id])
            else s'.sessions[id] == s.sessions[id]
  {
  }

  /** And that for good: whatever comes after a logout, of the session or of all, its session takes no token. */
  lemma {:induction false} LoggedOutForGood(s: State, out: Op, later: seq<Op>, id: string, token: Token)
    requires Inv(s) && id in s.sessions
    requires out.Logout? || out.LogoutAll?
    requires (out.Logout? ==> out.sessionId == id) && (out.LogoutAll? ==> out.userId == s.sessions[id].userId)
    ensures var s' := Run(Apply(s, out).0, later);
            id in s'.sessions && !Accepts(s'.sessions[id], token)
  {
    StepKeepsInv(s, out);
    NeverReactivated(Apply(s, out).0, later, id);
  }

  // ---------------------------------------------------------------- where sessions come from

  /** The session was opened by this step: a login of its user with the right password. */
  predicate OpenedBy(before: State, op: Op, id: string, userId: string)
  {
    op.Login? && op.sessionId == id && op.userId == userId && op.passwordMatches && id !in before.sessions &&
    Enabled(before, userId) && Unlocked(before, userId, op.at)
  }

  ghost predicate OpenedInRun(s: State, ops: seq<Op>, id: string, userId: string)
  {
    exists i :: 0 <= i < |ops| && OpenedBy(Run(s, ops[..i]), ops[i], id, userId)
  }

  /** A step keeps every session and its user, and opens a new one in no other way. */
  lemma StepOpens(s: State, op: Op, id: string)
    requires id in Apply(s, op).0.sessions
    ensures var userId := Apply(s, op).0.sessions[id].userId;
            if id in s.sessions then s.sessions[id].userId == userId else OpenedBy(s, op, id, userId)
  {
    if op.Login? {
      LoginIff(s, op.userId, op.passwordMatches, op.sessionId, op.at);
    }
  }

  lemma OpenedEarlier(s: State, ops: seq<Op>, id: string, userId: string)
    requires ops != [] && OpenedInRun(s, ops[..|ops| - 1], id, userId)
    ensures OpenedInRun(s, ops, id, userId)
  {
    var init := ops[..|ops| - 1];
    var i :| 0 <= i < |init| && OpenedBy(Run(s, init[..i]), init[i], id, userId);
    assert init[..i] == ops[..i];
  }

  /** After every run: each session was opened by a login of its user with the right password, then unlocked. */
  lemma {:induction false} OpenedByLogin(users: map<string, User>, ops: seq<Op>, id: string)
    requires id in Run(State(users, map[], map[]), ops).sessions
    ensures var start := State(users, map[], map[]);
            OpenedInRun(start, ops, id, Run(start, ops).sessions[id].userId)
  {
    var start := State(users, map[], map[]);
    if ops != [] {
      var n := |ops| - 1;
      var s, userId := Run(start, ops[..n]), Run(start, ops).sessions[id].userId;
      StepOpens(s, ops[n], id);
      if id in s.sessions {
        OpenedByLogin(users, ops[..n], id);
        OpenedEarlier(start, ops, id, userId);
      } else {
        assert OpenedBy(Run(start, ops[..n]), ops[n], id, userId);
      }
    }
  }

  // ---------------------------------------------------------------- account lock

  /**
   Lock-out is for good: although lockedUntil is only fifteen minutes ahead, the status set
   with it is checked before anything resets it, so no later login succeeds, whenever and
   with whatever password.
   */
  lemma {:induction false} LockedForever(s: State, ops: seq<Op>, userId: string, passwordMatches: bool,
                                         sessionId: string, at: int)
    requires userId in s.users && s.users[userId].status == LockedOut
    ensures var s' := Run(s, ops);
            userId in s'.users && s'.users[userId] == s.users[userId].(claims := s'.users[userId].claims) &&
            Apply(s', Login(userId, passwordMatches, sessionId, at)) == (s', Refused(AccountLocked))
  {
    if ops != [] {
      LockedForever(s, ops[..|ops| - 1], userId, passwordMatches, sessionId, at);
    }
  }

  /** The wrong passwords of one user in a run. */
  function WrongPasswords(ops: seq<Op>, userId: string): nat
  {
    if ops == [] then 0
    else
      var op := ops[|ops| - 1];
      WrongPasswords(ops[..|ops| - 1], userId)
      + if op.Login? && op.userId == userId && !op.passwordMatches then 1 else 0
  }

  predicate NoSuccess(ops: seq<Op>, userId: string)
  {
    forall i :: 0 <= i < |ops| ==> !(ops[i].Login? && ops[i].userId == userId && ops[i].passwordMatches)
  }

  /**
   The account of a user with `failed` failures behind him, after `wrong` more: locked by the
   fifth, or by the next one if there were five already, and counting no further then.
   */
  predicate LockedByFifth(u: User, before: User, wrong: nat)
  {
    var failed := before.failedLoginAttempts;
    if wrong == 0 || failed + wrong < 5 then
      u == before.(failedLoginAttempts := failed + wrong, claims := u.claims)
    else
      u.status == LockedOut && u.lockedUntil.Some? && u.failedLoginAttempts == if failed < 5 then 5 else failed + 1
  }

  /**
   An account that may log in is locked, over every run without a right password of its user,
   exactly when the failures add up to five; at whatever times, and whatever others do.
   */
  lemma {:induction false} FiveFailuresLock(s: State, ops: seq<Op>, userId: string)
    requires userId in s.users && s.users[userId].status !in {LockedOut, Disabled, Suspended}
    requires s.users[userId].lockedUntil.None? && NoSuccess(ops, userId)
    ensures userId in Run(s, ops).users
    ensures LockedByFifth(Run(s, ops).users[userId], s.users[userId], WrongPasswords(ops, userId))
  {
    if ops != [] {
      var n := |ops| - 1;
      assert forall i :: 0 <= i < n ==> ops[..n][i] == ops[i];
      FiveFailuresLock(s, ops[..n], userId);
      FailureStep(Run(s, ops[..n]), ops[n], userId, s.users[userId], WrongPasswords(ops[..n], userId));
    }
  }

  lemma FailureStep(s: State, op: Op, userId: string, before: User, wrong: nat)
    requires before.status !in {LockedOut, Disabled, Suspended} && before.lockedUntil.None?
    requires userId in s.users && LockedByFifth(s.users[userId], before, wrong)
    requires !(op.Login? && op.userId == userId && op.passwordMatches)
    ensures userId in Apply(s, op).0.users
    ensures LockedByFifth(Apply(s, op).0.users[userId], before,
                          wrong + if op.Login? && op.userId == userId && !op.passwordMatches then 1 else 0)
  {
  }
}
