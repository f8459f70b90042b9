/** The credential tables as the transitions change them, statement by statement; an error
    rolls the transaction back (internal/repository/auth_transition.go,
    internal/repository/invite.go, internal/repository/member_invite_transition.go and
    internal/repository/sqlite.go). */
module AuthStore {
  import opened Domain
  import opened Turn
  import C = Credentials

  class Store {
    var members: Users
    var nextMember: nat
    var names: map<nat, string>
    var accounts: map<nat, C.Account>
    var identities: map<nat, C.Identity>
    var sessions: map<string, C.Session>
    var invites: map<string, C.Invite>
    var nextUp: Option<nat>

    constructor ()
      ensures Rows() == C.EMPTY
    {
      members, nextMember, names, accounts, identities := map[], 1, map[], map[], map[];
      sessions, invites, nextUp := map[], map[], None;
    }

    function Rows(): C.Auth
      reads this
    {
      C.Auth(members, nextMember, names, accounts, identities, sessions, invites, nextUp)
    }

    /** Roll back. */
    method Restore(t: C.Auth)
      modifies this
      ensures Rows() == t
    {
      members, nextMember, names, accounts := t.members, t.nextMember, t.names, t.accounts;
      identities, sessions, invites, nextUp := t.identities, t.sessions, t.invites, t.nextUp;
    }

    method RetireCurrent(user: nat, now: int)
      modifies this`invites
      ensures Rows() == C.Retired(old(Rows()), user, now)
    {
      invites := map k | k in invites ::
        if invites[k].user == user && invites[k].usedAt.None? && invites[k].revokedAt.None?
        then invites[k].(revokedAt := Some(now)) else invites[k];
    }

    method DeleteSessions(user: nat)
      modifies this`sessions
      ensures Rows() == C.SignedOut(old(Rows()), user)
    {
      sessions := map k | k in sessions && sessions[k].user != user :: sessions[k];
    }

    /** deleteUserAuthRows. */
    method DeleteAuthRows(user: nat)
      modifies this`accounts, this`identities, this`sessions, this`invites
      ensures Rows() == C.Stripped(old(Rows()), user)
    {
      accounts := accounts - {user};
      identities := identities - {user};
      DeleteSessions(user);
      invites := map k | k in invites && invites[k].user != user :: invites[k];
    }

    /** insertTransitionSession, when the transition opens a session at all. */
    method InsertSession(user: nat, session: Option<C.NewSession>) returns (r: Result<nat>)
      modifies this`sessions
      ensures (Rows(), r) == C.WithSession(old(Rows()), user, session)
    {
      if session.Some? {
        if session.value.token in sessions {
          return Err(StoreFailed);
        }
        sessions := sessions[session.value.token :=
          C.Session(user, session.value.expiresAt, session.value.lastSeenAt)];
      }
      return Ok(user);
    }

    /** The password write two transitions share: reset an account or create one. */
    method SetPassword(user: nat, username: string, hash: string) returns (error: Option<Error>)
      modifies this`accounts
      ensures var keyed := C.PasswordSet(old(Rows()), user, username, hash);
        if keyed.Ok? then error == None && Rows() == keyed.value else error == Some(keyed.error) && Rows() == old(Rows())
    {
      if user in accounts {
        if username != "" && C.Lower(username) != C.Lower(accounts[user].username) {
          return Some(InvalidInput);
        }
        accounts := accounts[user := accounts[user].(passwordHash := hash)];
        return None;
      }
      if username == "" {
        return Some(InvalidInput);
      }
      if C.UsernameTaken(Rows(), username, user) {
        return Some(Conflict);
      }
      accounts := accounts[user := C.Account(username, hash)];
      return None;
    }

    method RedeemPasswordInvite(token: string, username: string, hash: string, session: Option<C.NewSession>, now: int)
      returns (r: Result<nat>)
      modifies this
      ensures (Rows(), r) == C.RedeemPasswordInvite(old(Rows()), token, username, hash, session, now)
    {
      var before := Rows();
      var claim := C.Claimable(before, token, now);
      if claim.Err? {
        return Err(claim.error);
      }
      var user := claim.value.user;
      var error := SetPassword(user, username, hash);
      if error.Some? {
        return Err(error.value);
      }
      DeleteSessions(user);
      invites := invites[token := invites[token].(usedAt := Some(now))];
      r := InsertSession(user, session);
      if r.Err? {
        Restore(before);
      }
    }

    method SetLocalCredential(user: nat, username: string, hash: string, first: bool, signOut: bool, now: int)
      returns (r: Result<nat>)
      modifies this
      ensures (Rows(), r) == C.SetLocalCredential(old(Rows()), user, username, hash, first, signOut, now)
    {
      if !C.Active(Rows(), user) {
        return Err(NotFound);
      }
      var wasReset := user in accounts;
      if wasReset && first {
        return Err(Conflict);
      }
      var error := SetPassword(user, username, hash);
      if error.Some? {
        return Err(error.value);
      }
      RetireCurrent(user, now);
      if wasReset && signOut {
        DeleteSessions(user);
      }
      return Ok(user);
    }

    method ChangeVerifiedPassword(user: nat, expected: string, hash: string, session: Option<C.NewSession>, now: int)
      returns (r: Result<nat>)
      modifies this
      ensures (Rows(), r) == C.ChangeVerifiedPassword(old(Rows()), user, expected, hash, session, now)
    {
      var before := Rows();
      if !C.Active(before, user) {
        return Err(NotFound);
      }
      if user !in accounts || accounts[user].passwordHash != expected {
        return Err(Conflict);
      }
      accounts := accounts[user := accounts[user].(passwordHash := hash)];
      DeleteSessions(user);
      RetireCurrent(user, now);
      r := InsertSession(user, session);
      if r.Err? {
        Restore(before);
      }
    }

    method CompleteLocalLogin(user: nat, expected: string, rehash: Option<string>, session: C.NewSession)
      returns (r: Result<nat>)
      modifies this
      ensures (Rows(), r) == C.CompleteLocalLogin(old(Rows()), user, expected, rehash, session)
    {
      var before := Rows();
      if !C.Active(before, user) || user !in accounts || accounts[user].passwordHash != expected {
        return Err(InvalidCredentials);
      }
      if rehash.Some? {
        accounts := accounts[user := accounts[user].(passwordHash := rehash.value)];
      } else {
        accounts := accounts[user := accounts[user].(passwordHash := expected)];
      }
      r := InsertSession(user, Some(session));
      if r.Err? {
        Restore(before);
      }
    }

    method DeleteLocalCredential(user: nat, actor: nat, now: int) returns (r: Result<nat>)
      modifies this
      ensures (Rows(), r) == C.DeleteLocalCredential(old(Rows()), user, actor, now)
    {
      if !C.Active(Rows(), user) || user !in accounts {
        return Err(NotFound);
      }
      if user == actor && user !in identities {
        return Err(Conflict);
      }
      accounts := accounts - {user};
      if user !in identities {
        DeleteSessions(user);
      }
      RetireCurrent(user, now);
      return Ok(user);
    }

    /** linkOIDCIdentity. */
    method Link(user: nat, identity: C.Identity) returns (error: Option<Error>)
      modifies this`identities
      ensures var linked := C.Linked(old(Rows()), user, identity);
        if linked.Ok? then error == None && Rows() == linked.value else error == Some(linked.error) && Rows() == old(Rows())
    {
      if !C.Active(Rows(), user) {
        return Some(NotFound);
      }
      if user in identities && identities[user] == identity {
        return None;
      }
      if exists u :: u in identities && identities[u] == identity {
        return Some(Conflict);
      }
      if user in identities {
        return Some(Conflict);
      }
      identities := identities[user := identity];
      return None;
    }

    method RedeemOidcInvite(token: string, identity: C.Identity, session: Option<C.NewSession>, now: int)
      returns (r: Result<nat>)
      modifies this
      ensures (Rows(), r) == C.RedeemOidcInvite(old(Rows()), token, identity, session, now)
    {
      var before := Rows();
      var claim := C.Claimable(before, token, now);
      if claim.Err? {
        return Err(claim.error);
      }
      var user := claim.value.user;
      if user in accounts {
        return Err(InviteInvalid);
      }
      var error := Link(user, identity);
      if error.Some? {
        return Err(error.value);
      }
      DeleteSessions(user);
      invites := invites[token := invites[token].(usedAt := Some(now))];
      r := InsertSession(user, session);
      if r.Err? {
        Restore(before);
      }
    }

    method LinkOidcAndRetireInvite(user: nat, identity: C.Identity, token: string, now: int, idleCutoff: int)
      returns (r: Result<nat>)
      modifies this
      ensures (Rows(), r) == C.LinkOidcAndRetireInvite(old(Rows()), user, identity, token, now, idleCutoff)
    {
      if token !in sessions || sessions[token].user != user || !C.Active(Rows(), user) ||
         sessions[token].expiresAt <= now || sessions[token].lastSeenAt <= idleCutoff
      {
        return Err(SessionInvalid);
      }
      var error := Link(user, identity);
      if error.Some? {
        return Err(error.value);
      }
      RetireCurrent(user, now);
      return Ok(user);
    }

    method DeleteOidcIdentity(user: nat, actor: nat, now: int) returns (r: Result<nat>)
      modifies this
      ensures (Rows(), r) == C.DeleteOidcIdentity(old(Rows()), user, actor, now)
    {
      if !C.Active(Rows(), user) || user !in identities {
        return Err(NotFound);
      }
      if user == actor && user !in accounts {
        return Err(Conflict);
      }
      identities := identities - {user};
      if user !in accounts {
        DeleteSessions(user);
      }
      RetireCurrent(user, now);
      return Ok(user);
    }

    /** insertMemberInvite. */
    method InsertInvite(user: nat, invite: C.NewInvite) returns (r: Result<nat>)
      modifies this`invites
      ensures (Rows(), r) == C.Issued(old(Rows()), user, invite)
    {
      if invite.token in invites || (exists k :: k in invites && invites[k].publicId == invite.publicId) ||
         C.HasCurrent(Rows(), user)
      {
        return Err(Conflict);
      }
      invites := invites[invite.token := C.Invite(user, invite.publicId, invite.expiresAt, None, None)];
      return Ok(user);
    }

    /** ReplaceCurrent: revoke the exact generation, then issue the next one. */
    method ReplaceCurrent(token: string, publicId: string, invite: C.NewInvite) returns (r: Result<nat>)
      modifies this
      ensures (Rows(), r) == C.ReplaceCurrent(old(Rows()), token, publicId, invite)
    {
      var before := Rows();
      if !C.IsCurrent(before, token, publicId) {
        return Err(Conflict);
      }
      var user := invites[token].user;
      invites := invites[token := invites[token].(revokedAt := Some(invite.createdAt))];
      if !C.Active(before, user) {
        Restore(before);
        return Err(NotFound);
      }
      r := InsertInvite(user, invite);
      if r.Err? {
        Restore(before);
      }
    }

    /** insertMember: an open turn falls to the first member who may take it. */
    method InsertMember(name: string, role: Role, createdAt: int) returns (user: nat)
      modifies this`members, this`names, this`nextMember, this`nextUp
      ensures user == old(nextMember) && Rows() == C.Joined(old(Rows()), name, role, createdAt)
    {
      var before := Rows();
      user := nextMember;
      members := members[user := User(createdAt, role, false)];
      names := names[user := name];
      nextMember := nextMember + 1;
      if role != Guest && C.TurnIsOpen(before) {
        nextUp := Some(user);
      }
    }

    method CreateMemberWithInvite(name: string, role: Role, invite: C.NewInvite) returns (r: Result<nat>)
      modifies this
      ensures (Rows(), r) == C.CreateMemberWithInvite(old(Rows()), name, role, invite)
    {
      var before := Rows();
      if C.NameTaken(before, name) {
        return Err(Conflict);
      }
      var user := InsertMember(name, role, invite.createdAt);
      r := InsertInvite(user, invite);
      if r.Err? {
        Restore(before);
      }
    }

    method RestoreMemberWithInvite(user: nat, invite: C.NewInvite) returns (r: Result<nat>)
      modifies this
      ensures (Rows(), r) == C.RestoreMemberWithInvite(old(Rows()), user, invite)
    {
      var before := Rows();
      if !C.Archived(before, user) {
        return Err(NotFound);
      }
      DeleteAuthRows(user);
      members := members[user := members[user].(archived := false)];
      r := InsertInvite(user, invite);
      if r.Err? {
        Restore(before);
      }
    }
  }
}
