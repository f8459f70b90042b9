/** Logins, linked identities, sessions and invites: each transition as a function from tables
    to tables (internal/repository/auth_transition.go, internal/repository/invite.go,
    internal/repository/member_invite_transition.go and internal/repository/sqlite.go).
    Hashes and tokens are opaque; a transition that answers an error changed nothing. */
module Credentials {
  import opened Domain
  import opened Turn

  datatype Account = Account(username: string, passwordHash: string)

  datatype Identity = Identity(issuer: string, subject: string)

  datatype Session = Session(user: nat, expiresAt: int, lastSeenAt: int)

  datatype Invite = Invite(user: nat, publicId: string, expiresAt: int, usedAt: Option<int>, revokedAt: Option<int>)
  {
    predicate Current() {
      usedAt.None? && revokedAt.None?
    }
  }

  /** Accounts and identities by member, sessions and invites by token hash. */
  datatype Auth = Auth(
    members: Users, nextMember: nat, names: map<nat, string>, accounts: map<nat, Account>,
    identities: map<nat, Identity>, sessions: map<string, Session>, invites: map<string, Invite>, nextUp: Option<nat>)

  const EMPTY := Auth(map[], 1, map[], map[], map[], map[], map[], None)

  /** A session to open, and its token hash. */
  datatype NewSession = NewSession(token: string, expiresAt: int, lastSeenAt: int)

  /** An invite to issue. */
  datatype NewInvite = NewInvite(token: string, publicId: string, expiresAt: int, createdAt: int)

  /** Usernames compare without regard to ASCII case. */
  function Lower(s: string): string {
    seq(|s|, k requires 0 <= k < |s| => if 'A' <= s[k] <= 'Z' then (s[k] as int + 32) as char else s[k])
  }

  predicate Active(t: Auth, user: nat) {
    user in t.members && !t.members[user].archived
  }

  predicate UsernameTaken(t: Auth, username: string, except: nat) {
    exists u :: u in t.accounts && u != except && Lower(t.accounts[u].username) == Lower(username)
  }

  // ---- Helpers ----------------------------------------------------------------------------

  /** loadClaimInvite: the claim still stands. */
  function Claimable(t: Auth, token: string, now: int): Result<Invite> {
    if token !in t.invites || !Active(t, t.invites[token].user) then Err(InviteInvalid)
    else if t.invites[token].usedAt.Some? then Err(InviteUsed)
    else if t.invites[token].revokedAt.Some? || now >= t.invites[token].expiresAt then Err(InviteInvalid)
    else Ok(t.invites[token])
  }

  function Consumed(t: Auth, token: string, now: int): Auth
    requires token in t.invites
  {
    t.(invites := t.invites[token := t.invites[token].(usedAt := Some(now))])
  }

  /** retireCurrentInvite. */
  function Retired(t: Auth, user: nat, now: int): Auth {
    t.(invites := map k | k in t.invites ::
         if t.invites[k].user == user && t.invites[k].Current() then t.invites[k].(revokedAt := Some(now)) else t.invites[k])
  }

  function SignedOut(t: Auth, user: nat): Auth {
    t.(sessions := map k | k in t.sessions && t.sessions[k].user != user :: t.sessions[k])
  }

  function SignedIn(t: Auth, user: nat, s: NewSession): Auth {
    t.(sessions := t.sessions[s.token := Session(user, s.expiresAt, s.lastSeenAt)])
  }

  /** The rows of a member that a restore or an archive removes: deleteUserAuthRows. */
  function Stripped(t: Auth, user: nat): Auth {
    SignedOut(t, user).(
      accounts := t.accounts - {user}, identities := t.identities - {user},
      invites := map k | k in t.invites && t.invites[k].user != user :: t.invites[k])
  }

  /** linkOIDCIdentity. */
  function Linked(t: Auth, user: nat, identity: Identity): Result<Auth> {
    if !Active(t, user) then Err(NotFound)
    else if exists u :: u in t.identities && t.identities[u] == identity then
      if user in t.identities && t.identities[user] == identity then Ok(t) else Err(Conflict)
    else if user in t.identities then Err(Conflict)
    else Ok(t.(identities := t.identities[user := identity]))
  }

  // ---- The transitions ----------------------------------------------------------------------

  function WithSession(t: Auth, user: nat, session: Option<NewSession>): (Auth, Result<nat>) {
    if session.None? then (t, Ok(user))
    else if session.value.token in t.sessions then (t, Err(StoreFailed))
    else (SignedIn(t, user, session.value), Ok(user))
  }

  /** Roll back to `t` unless the last statement of a transition succeeded. */
  function Commit(t: Auth, last: (Auth, Result<nat>)): (Auth, Result<nat>) {
    if last.1.Err? then (t, last.1) else last
  }

  function PasswordSet(t: Auth, user: nat, username: string, hash: string): Result<Auth> {
    if user in t.accounts then
      if username != "" && Lower(username) != Lower(t.accounts[user].username) then Err(InvalidInput)
      else Ok(t.(accounts := t.accounts[user := t.accounts[user].(passwordHash := hash)]))
    else if username == "" then Err(InvalidInput)
    else if UsernameTaken(t, username, user) then Err(Conflict)
    else Ok(t.(accounts := t.accounts[user := Account(username, hash)]))
  }

  function RedeemPasswordInvite(
    t: Auth, token: string, username: string, hash: string, session: Option<NewSession>, now: int
  ): (Auth, Result<nat>) {
    match Claimable(t, token, now)
    case Err(error) => (t, Err(error))
    case Ok(invite) =>
      match PasswordSet(t, invite.user, username, hash)
      case Err(error) => (t, Err(error))
      case Ok(keyed) => Commit(t, WithSession(Consumed(SignedOut(keyed, invite.user), token, now), invite.user, session))
  }

  function SetLocalCredential(
    t: Auth, user: nat, username: string, hash: string, first: bool, signOut: bool, now: int
  ): (Auth, Result<nat>) {
    if !Active(t, user) then (t, Err(NotFound))
    else if user in t.accounts && first then (t, Err(Conflict))
    else
      match PasswordSet(t, user, username, hash)
      case Err(error) => (t, Err(error))
      case Ok(keyed) =>
        var retired := Retired(keyed, user, now);
        (if user in t.accounts && signOut then SignedOut(retired, user) else retired, Ok(user))
  }

  function ChangeVerifiedPassword(
    t: Auth, user: nat, expected: string, hash: string, session: Option<NewSession>, now: int
  ): (Auth, Result<nat>) {
    if !Active(t, user) then (t, Err(NotFound))
    else if user !in t.accounts || t.accounts[user].passwordHash != expected then (t, Err(Conflict))
    else
      var changed := t.(accounts := t.accounts[user := t.accounts[user].(passwordHash := hash)]);
      Commit(t, WithSession(Retired(SignedOut(changed, user), user, now), user, session))
  }

  function CompleteLocalLogin(
    t: Auth, user: nat, expected: string, rehash: Option<string>, session: NewSession
  ): (Auth, Result<nat>) {
    if !Active(t, user) || user !in t.accounts || t.accounts[user].passwordHash != expected
    then (t, Err(InvalidCredentials))
    else
      var hash := if rehash.Some? then rehash.value else expected;
      Commit(t, WithSession(t.(accounts := t.accounts[user := t.accounts[user].(passwordHash := hash)]), user, Some(session)))
  }

  function DeleteLocalCredential(t: Auth, user: nat, actor: nat, now: int): (Auth, Result<nat>) {
    if !Active(t, user) || user !in t.accounts then (t, Err(NotFound))
    else if user == actor && user !in t.identities then (t, Err(Conflict))
    else
      var deleted := t.(accounts := t.accounts - {user});
      (Retired(if user in t.identities then deleted else SignedOut(deleted, user), user, now), Ok(user))
  }

  function RedeemOidcInvite(
    t: Auth, token: string, identity: Identity, session: Option<NewSession>, now: int
  ): (Auth, Result<nat>) {
    match Claimable(t, token, now)
    case Err(error) => (t, Err(error))
    case Ok(invite) =>
      if invite.user in t.accounts then (t, Err(InviteInvalid))
      else
        match Linked(t, invite.user, identity)
        case Err(error) => (t, Err(error))
        case Ok(linked) => Commit(t, WithSession(Consumed(SignedOut(linked, invite.user), token, now), invite.user, session))
  }

  function CompleteOidcLogin(t: Auth, user: nat, identity: Identity, session: NewSession): (Auth, Result<nat>) {
    if !Active(t, user) || user !in t.identities || t.identities[user] != identity then (t, Err(NotFound))
    else Commit(t, WithSession(t, user, Some(session)))
  }

  function LinkOidcAndRetireInvite(
    t: Auth, user: nat, identity: Identity, token: string, now: int, idleCutoff: int
  ): (Auth, Result<nat>) {
    if token !in t.sessions || t.sessions[token].user != user || !Active(t, user) ||
       t.sessions[token].expiresAt <= now || t.sessions[token].lastSeenAt <= idleCutoff
    then (t, Err(SessionInvalid))
    else
      match Linked(t, user, identity)
      case Err(error) => (t, Err(error))
      case Ok(linked) => (Retired(linked, user, now), Ok(user))
  }

  function DeleteOidcIdentity(t: Auth, user: nat, actor: nat, now: int): (Auth, Result<nat>) {
    if !Active(t, user) || user !in t.identities then (t, Err(NotFound))
    else if user == actor && user !in t.accounts then (t, Err(Conflict))
    else
      var deleted := t.(identities := t.identities - {user});
      (Retired(if user in t.accounts then deleted else SignedOut(deleted, user), user, now), Ok(user))
  }

  // ---- Invites ----------------------------------------------------------------------------------

  predicate HasCurrent(t: Auth, user: nat) {
    exists k :: k in t.invites && t.invites[k].user == user && t.invites[k].Current()
  }

  /** INSERT INTO invites under its three unique indexes. */
  function Issued(t: Auth, user: nat, invite: NewInvite): (Auth, Result<nat>) {
    if invite.token in t.invites || (exists k :: k in t.invites && t.invites[k].publicId == invite.publicId) ||
       HasCurrent(t, user)
    then (t, Err(Conflict))
    else (t.(invites := t.invites[invite.token := Invite(user, invite.publicId, invite.expiresAt, None, None)]), Ok(user))
  }

  function CreateInvite(t: Auth, user: nat, invite: NewInvite, passwordReset: bool): (Auth, Result<nat>) {
    if !Active(t, user) then (t, Err(NotFound))
    else if passwordReset && user !in t.accounts then (t, Err(Conflict))
    else if !passwordReset && (user in t.accounts || user in t.identities) then (t, Err(Conflict))
    else Issued(t, user, invite)
  }

  predicate IsCurrent(t: Auth, token: string, publicId: string) {
    token in t.invites && t.invites[token].publicId == publicId && t.invites[token].Current()
  }

  /** ReplaceCurrent: a compare-and-swap on the public handle of the row under `token`. */
  function ReplaceCurrent(t: Auth, token: string, publicId: string, invite: NewInvite): (Auth, Result<nat>) {
    if !IsCurrent(t, token, publicId) then (t, Err(Conflict))
    else
      var user := t.invites[token].user;
      var revoked := t.(invites := t.invites[token := t.invites[token].(revokedAt := Some(invite.createdAt))]);
      if !Active(t, user) then (t, Err(NotFound)) else Commit(t, Issued(revoked, user, invite))
  }

  /** RevokeOpen and DismissExpired: retireExact on an invite that is still open, or expired. */
  function RetireExact(t: Auth, token: string, publicId: string, expired: bool, now: int, at: int): (Auth, Result<nat>) {
    if !IsCurrent(t, token, publicId) || (t.invites[token].expiresAt <= now) != expired then (t, Err(Conflict))
    else (t.(invites := t.invites[token := t.invites[token].(revokedAt := Some(at))]), Ok(t.invites[token].user))
  }

  // ---- Members ----------------------------------------------------------------------------------

  predicate NameTaken(t: Auth, name: string) {
    exists u :: u in t.names && t.names[u] == name
  }

  /** The holder left the rotation, or never was. */
  predicate TurnIsOpen(t: Auth) {
    t.nextUp.None? || !Participates(t.members, t.nextUp.value)
  }

  /** A new member, who takes the turn when nobody eligible holds it. */
  function Joined(t: Auth, name: string, role: Role, createdAt: int): Auth {
    var user := t.nextMember;
    t.(members := t.members[user := User(createdAt, role, false)], names := t.names[user := name],
       nextMember := user + 1, nextUp := if role != Guest && TurnIsOpen(t) then Some(user) else t.nextUp)
  }

  function CreateMemberWithInvite(t: Auth, name: string, role: Role, invite: NewInvite): (Auth, Result<nat>) {
    if NameTaken(t, name) then (t, Err(Conflict))
    else Commit(t, Issued(Joined(t, name, role, invite.createdAt), t.nextMember, invite))
  }

  predicate Archived(t: Auth, user: nat) {
    user in t.members && t.members[user].archived
  }

  function Restored(t: Auth, user: nat): Auth
    requires user in t.members
  {
    Stripped(t, user).(members := t.members[user := t.members[user].(archived := false)])
  }

  function RestoreMember(t: Auth, user: nat): (Auth, Result<nat>) {
    if !Archived(t, user) then (t, Err(NotFound)) else (Restored(t, user), Ok(user))
  }

  function RestoreMemberWithInvite(t: Auth, user: nat, invite: NewInvite): (Auth, Result<nat>) {
    if !Archived(t, user) then (t, Err(NotFound)) else Commit(t, Issued(Restored(t, user), user, invite))
  }

  /** Remove: a member without movies is deleted with everything it owns, one with movies is
      archived and stripped. */
  function RemoveMember(t: Auth, user: nat, authored: nat): (Auth, Result<nat>) {
    if user !in t.members then (t, Err(NotFound))
    else if t.members[user].role == Admin && !t.members[user].archived && |ActiveAdmins(t.members)| <= 1
    then (t, Err(Conflict))
    else if authored == 0 then
      (Stripped(t, user).(members := t.members - {user}, names := t.names - {user},
                          nextUp := if t.nextUp == Some(user) then None else t.nextUp), Ok(user))
    else (Stripped(t, user).(members := t.members[user := t.members[user].(archived := true)]), Ok(user))
  }

  datatype Step =
    | RedeemPassword(token: string, username: string, hash: string, session: Option<NewSession>, now: int)
    | SetLocal(user: nat, username: string, hash: string, first: bool, signOut: bool, now: int)
    | ChangePassword(user: nat, expected: string, hash: string, session: Option<NewSession>, now: int)
    | LocalLogin(user: nat, expected: string, rehash: Option<string>, login: NewSession)
    | DropLocal(user: nat, actor: nat, now: int)
    | RedeemOidc(token: string, identity: Identity, session: Option<NewSession>, now: int)
    | OidcLogin(user: nat, identity: Identity, login: NewSession)
    | LinkOidc(user: nat, identity: Identity, token: string, now: int, idleCutoff: int)
    | DropOidc(user: nat, actor: nat, now: int)
    | Issue(user: nat, invite: NewInvite, passwordReset: bool)
    | Replace(token: string, publicId: string, invite: NewInvite)
    | Retire(token: string, publicId: string, expired: bool, now: int, at: int)
    | AddMember(name: string, role: Role, invite: NewInvite)
    | Unarchive(user: nat)
    | UnarchiveWithInvite(user: nat, invite: NewInvite)
    | Remove(user: nat, authored: nat)
    | SignOut(token: string)

  function Exec(t: Auth, s: Step): Auth {
    match s
    case RedeemPassword(token, username, hash, session, now) => RedeemPasswordInvite(t, token, username, hash, session, now).0
    case SetLocal(user, username, hash, first, signOut, now) =>
      SetLocalCredential(t, user, username, hash, first, signOut, now).0
    case ChangePassword(user, expected, hash, session, now) => ChangeVerifiedPassword(t, user, expected, hash, session, now).0
    case LocalLogin(user, expected, rehash, login) => CompleteLocalLogin(t, user, expected, rehash, login).0
    case DropLocal(user, actor, now) => DeleteLocalCredential(t, user, actor, now).0
    case RedeemOidc(token, identity, session, now) => RedeemOidcInvite(t, token, identity, session, now).0
    case OidcLogin(user, identity, login) => CompleteOidcLogin(t, user, identity, login).0
    case LinkOidc(user, identity, token, now, idleCutoff) =>
      LinkOidcAndRetireInvite(t, user, identity, token, now, idleCutoff).0
    case DropOidc(user, actor, now) => DeleteOidcIdentity(t, user, actor, now).0
    case Issue(user, invite, passwordReset) => CreateInvite(t, user, invite, passwordReset).0
    case Replace(token, publicId, invite) => ReplaceCurrent(t, token, publicId, invite).0
    case Retire(token, publicId, expired, now, at) => RetireExact(t, token, publicId, expired, now, at).0
    case AddMember(name, role, invite) => CreateMemberWithInvite(t, name, role, invite).0
    case Unarchive(user) => RestoreMember(t, user).0
    case UnarchiveWithInvite(user, invite) => RestoreMemberWithInvite(t, user, invite).0
    case Remove(user, authored) => RemoveMember(t, user, authored).0
    case SignOut(token) => t.(sessions := t.sessions - {token})
  }
}
