/** What every run of the credential transitions keeps. */
module CredentialHistory {
  import opened Domain
  import opened Turn
  import opened Credentials

  predicate HasCredential(t: Auth, user: nat) {
    user in t.accounts || user in t.identities
  }

  /** Logins, identities, sessions and invites belong to active members, and a session to a
      member who could sign in. */
  ghost predicate OwnersOk(t: Auth) {
    && (forall u :: u in t.accounts ==> Active(t, u))
    && (forall u :: u in t.identities ==> Active(t, u))
    && (forall k :: k in t.sessions ==> Active(t, t.sessions[k].user) && HasCredential(t, t.sessions[k].user))
    && (forall k :: k in t.invites ==> Active(t, t.invites[k].user))
    && (forall u :: u in t.members ==> u < t.nextMember)
  }

  /** Invites: used and revoked exclude each other; a member whose only credential is a linked
      identity has none that is current. */
  ghost predicate InvitesOk(t: Auth) {
    && (forall k :: k in t.invites ==> t.invites[k].usedAt.None? || t.invites[k].revokedAt.None?)
    && (forall k :: (k in t.invites && t.invites[k].Current() && t.invites[k].user in t.identities) ==>
          t.invites[k].user in t.accounts)
  }

  /** At most one current invite for a member. */
  ghost predicate OneCurrent(t: Auth) {
    forall j, k ::
      (j in t.invites && k in t.invites && t.invites[j].Current() && t.invites[k].Current() &&
       t.invites[j].user == t.invites[k].user) ==> j == k
  }

  ghost predicate Inv(t: Auth) {
    OwnersOk(t) && InvitesOk(t) && OneCurrent(t)
  }

  // ---- The helpers ---------------------------------------------------------------------------

  lemma RetiredKeepsInv(t: Auth, user: nat, now: int)
    requires OwnersOk(t) && OneCurrent(t)
    requires forall k :: k in t.invites ==> t.invites[k].usedAt.None? || t.invites[k].revokedAt.None?
    requires forall k :: (k in t.invites && t.invites[k].Current() && t.invites[k].user in t.identities &&
                          t.invites[k].user != user) ==> t.invites[k].user in t.accounts
    ensures Inv(Retired(t, user, now))
  {
  }

  lemma SignedOutKeepsInv(t: Auth, user: nat)
    requires Inv(t)
    ensures Inv(SignedOut(t, user))
  {
  }

  lemma WithSessionKeepsInv(t: Auth, user: nat, session: Option<NewSession>)
    requires Inv(t) && Active(t, user) && HasCredential(t, user)
    ensures Inv(WithSession(t, user, session).0)
  {
  }

  lemma ConsumedKeepsInv(t: Auth, token: string, now: int)
    requires OwnersOk(t) && OneCurrent(t) && token in t.invites && t.invites[token].Current()
    requires forall k :: k in t.invites ==> t.invites[k].usedAt.None? || t.invites[k].revokedAt.None?
    requires forall k :: (k in t.invites && k != token && t.invites[k].Current() &&
                          t.invites[k].user in t.identities) ==> t.invites[k].user in t.accounts
    ensures Inv(Consumed(t, token, now))
  {
  }

  /** Setting a password changes the member's login and nothing else. */
  lemma PasswordSetIs(t: Auth, user: nat, username: string, hash: string)
    requires PasswordSet(t, user, username, hash).Ok?
    ensures var after := PasswordSet(t, user, username, hash).value;
      after == t.(accounts := after.accounts) && after.accounts.Keys == t.accounts.Keys + {user}
  {
  }

  lemma PasswordSetKeepsInv(t: Auth, user: nat, username: string, hash: string)
    requires Inv(t) && Active(t, user) && PasswordSet(t, user, username, hash).Ok?
    ensures Inv(PasswordSet(t, user, username, hash).value) && user in PasswordSet(t, user, username, hash).value.accounts
  {
    PasswordSetIs(t, user, username, hash);
  }

  /** Linking may leave the member with an identity alone and an invite still current, until
      the same transition consumes or retires it. */
  lemma LinkedKeepsOwners(t: Auth, user: nat, identity: Identity)
    requires Inv(t) && Linked(t, user, identity).Ok?
    ensures var linked := Linked(t, user, identity).value;
      && OwnersOk(linked) && OneCurrent(linked) && user in linked.identities
      && linked.invites == t.invites && linked.accounts == t.accounts && linked.members == t.members
      && linked.sessions == t.sessions
      && (forall u :: u in linked.identities ==> u == user || u in t.identities)
  {
  }

  lemma StrippedKeepsInv(t: Auth, user: nat)
    requires Inv(t)
    ensures Inv(Stripped(t, user)) && user !in Stripped(t, user).accounts && user !in Stripped(t, user).identities
    ensures forall k :: k in Stripped(t, user).sessions ==> Stripped(t, user).sessions[k].user != user
    ensures forall k :: k in Stripped(t, user).invites ==> Stripped(t, user).invites[k].user != user
  {
  }

  lemma IssuedKeepsInv(t: Auth, user: nat, invite: NewInvite)
    requires Inv(t) && Active(t, user) && (user in t.identities ==> user in t.accounts)
    ensures Inv(Issued(t, user, invite).0)
  {
  }

  // ---- The transitions -------------------------------------------------------------------------

  lemma RedeemPasswordKeepsInv(t: Auth, token: string, username: string, hash: string, session: Option<NewSession>, now: int)
    requires Inv(t)
    ensures Inv(RedeemPasswordInvite(t, token, username, hash, session, now).0)
  {
    if Claimable(t, token, now).Ok? {
      var user := t.invites[token].user;
      if PasswordSet(t, user, username, hash).Ok? {
        PasswordSetKeepsInv(t, user, username, hash);
        var keyed := PasswordSet(t, user, username, hash).value;
        SignedOutKeepsInv(keyed, user);
        ConsumedKeepsInv(SignedOut(keyed, user), token, now);
        WithSessionKeepsInv(Consumed(SignedOut(keyed, user), token, now), user, session);
      }
    }
  }

  lemma SetLocalKeepsInv(t: Auth, user: nat, username: string, hash: string, first: bool, signOut: bool, now: int)
    requires Inv(t)
    ensures Inv(SetLocalCredential(t, user, username, hash, first, signOut, now).0)
  {
    if Active(t, user) && PasswordSet(t, user, username, hash).Ok? {
      PasswordSetKeepsInv(t, user, username, hash);
      var keyed := PasswordSet(t, user, username, hash).value;
      RetiredKeepsInv(keyed, user, now);
      SignedOutKeepsInv(Retired(keyed, user, now), user);
    }
  }

  lemma ChangePasswordKeepsInv(t: Auth, user: nat, expected: string, hash: string, session: Option<NewSession>, now: int)
    requires Inv(t)
    ensures Inv(ChangeVerifiedPassword(t, user, expected, hash, session, now).0)
  {
    if Active(t, user) && user in t.accounts {
      var changed := t.(accounts := t.accounts[user := t.accounts[user].(passwordHash := hash)]);
      assert Inv(changed);
      SignedOutKeepsInv(changed, user);
      RetiredKeepsInv(SignedOut(changed, user), user, now);
      WithSessionKeepsInv(Retired(SignedOut(changed, user), user, now), user, session);
    }
  }

  lemma LocalLoginKeepsInv(t: Auth, user: nat, expected: string, rehash: Option<string>, login: NewSession)
    requires Inv(t)
    ensures Inv(CompleteLocalLogin(t, user, expected, rehash, login).0)
  {
    if Active(t, user) && user in t.accounts {
      var hash := if rehash.Some? then rehash.value else expected;
      var changed := t.(accounts := t.accounts[user := t.accounts[user].(passwordHash := hash)]);
      assert Inv(changed);
      WithSessionKeepsInv(changed, user, Some(login));
    }
  }

  lemma DropLocalKeepsInv(t: Auth, user: nat, actor: nat, now: int)
    requires Inv(t)
    ensures Inv(DeleteLocalCredential(t, user, actor, now).0)
  {
    if DeleteLocalCredential(t, user, actor, now).1.Ok? {
      var deleted := t.(accounts := t.accounts - {user});
      RetiredKeepsInv(if user in t.identities then deleted else SignedOut(deleted, user), user, now);
    }
  }

  lemma RedeemOidcKeepsInv(t: Auth, token: string, identity: Identity, session: Option<NewSession>, now: int)
    requires Inv(t)
    ensures Inv(RedeemOidcInvite(t, token, identity, session, now).0)
  {
    if Claimable(t, token, now).Ok? {
      var user := t.invites[token].user;
      if user !in t.accounts && Linked(t, user, identity).Ok? {
        LinkedKeepsOwners(t, user, identity);
        var linked := Linked(t, user, identity).value;
        ConsumedKeepsInv(SignedOut(linked, user), token, now);
        WithSessionKeepsInv(Consumed(SignedOut(linked, user), token, now), user, session);
      }
    }
  }

  lemma LinkOidcKeepsInv(t: Auth, user: nat, identity: Identity, token: string, now: int, idleCutoff: int)
    requires Inv(t)
    ensures Inv(LinkOidcAndRetireInvite(t, user, identity, token, now, idleCutoff).0)
  {
    if LinkOidcAndRetireInvite(t, user, identity, token, now, idleCutoff).1.Ok? {
      LinkedKeepsOwners(t, user, identity);
      RetiredKeepsInv(Linked(t, user, identity).value, user, now);
    }
  }

  lemma DropOidcKeepsInv(t: Auth, user: nat, actor: nat, now: int)
    requires Inv(t)
    ensures Inv(DeleteOidcIdentity(t, user, actor, now).0)
  {
    if DeleteOidcIdentity(t, user, actor, now).1.Ok? {
      var deleted := t.(identities := t.identities - {user});
      RetiredKeepsInv(if user in t.accounts then deleted else SignedOut(deleted, user), user, now);
    }
  }

  lemma ReplaceKeepsInv(t: Auth, token: string, publicId: string, invite: NewInvite)
    requires Inv(t)
    ensures Inv(ReplaceCurrent(t, token, publicId, invite).0)
  {
    if IsCurrent(t, token, publicId) {
      var user := t.invites[token].user;
      var revoked := t.(invites := t.invites[token := t.invites[token].(revokedAt := Some(invite.createdAt))]);
      assert Inv(revoked);
      IssuedKeepsInv(revoked, user, invite);
    }
  }

  predicate Owns(t: Auth, user: nat) {
    HasCredential(t, user) || (exists k :: k in t.invites && t.invites[k].user == user)
  }

  /** Members come and go, as long as those who own rows stay active. */
  lemma MembershipKeepsInv(t: Auth, after: Auth)
    requires Inv(t)
    requires after.accounts == t.accounts && after.identities == t.identities
    requires after.sessions == t.sessions && after.invites == t.invites
    requires forall u :: u in after.members ==> u < after.nextMember
    requires forall u :: Owns(t, u) && Active(t, u) ==> Active(after, u)
    ensures Inv(after)
  {
    forall k | k in after.invites ensures Active(after, after.invites[k].user) {
      assert Owns(t, t.invites[k].user);
    }
  }

  lemma JoinedKeepsInv(t: Auth, name: string, role: Role, createdAt: int)
    requires Inv(t)
    ensures Inv(Joined(t, name, role, createdAt)) && Active(Joined(t, name, role, createdAt), t.nextMember)
    ensures t.nextMember !in Joined(t, name, role, createdAt).identities
  {
    MembershipKeepsInv(t, Joined(t, name, role, createdAt));
  }

  lemma AddMemberKeepsInv(t: Auth, name: string, role: Role, invite: NewInvite)
    requires Inv(t)
    ensures Inv(CreateMemberWithInvite(t, name, role, invite).0)
  {
    JoinedKeepsInv(t, name, role, invite.createdAt);
    IssuedKeepsInv(Joined(t, name, role, invite.createdAt), t.nextMember, invite);
  }

  lemma RestoredKeepsInv(t: Auth, user: nat)
    requires Inv(t) && user in t.members
    ensures Inv(Restored(t, user)) && Active(Restored(t, user), user) && user !in Restored(t, user).identities
  {
    StrippedKeepsInv(t, user);
  }

  lemma StrippedOwnsNothing(t: Auth, user: nat)
    ensures !Owns(Stripped(t, user), user)
  {
  }

  /** A removal changes the members alone once the member's rows are stripped. */
  lemma RemovalStrips(t: Auth, user: nat, authored: nat)
    requires RemoveMember(t, user, authored).1.Ok?
    ensures var stripped, after := Stripped(t, user), RemoveMember(t, user, authored).0;
      && after.accounts == stripped.accounts && after.identities == stripped.identities
      && after.sessions == stripped.sessions && after.invites == stripped.invites
      && after.nextMember == t.nextMember
      && (forall u :: u in after.members ==> u in t.members)
      && (forall u :: u != user && Active(t, u) ==> Active(after, u))
  {
  }

  lemma RemoveKeepsInv(t: Auth, user: nat, authored: nat)
    requires Inv(t)
    ensures Inv(RemoveMember(t, user, authored).0)
  {
    if RemoveMember(t, user, authored).1.Ok? {
      StrippedKeepsInv(t, user);
      StrippedOwnsNothing(t, user);
      RemovalStrips(t, user, authored);
      MembershipKeepsInv(Stripped(t, user), RemoveMember(t, user, authored).0);
    }
  }

  lemma ClaimStepKeepsInv(t: Auth, s: Step)
    requires Inv(t) && (s.RedeemPassword? || s.RedeemOidc? || s.LocalLogin? || s.OidcLogin? || s.LinkOidc?)
    ensures Inv(Exec(t, s))
  {
    match s
    case RedeemPassword(token, username, hash, session, now) => RedeemPasswordKeepsInv(t, token, username, hash, session, now);
    case RedeemOidc(token, identity, session, now) => RedeemOidcKeepsInv(t, token, identity, session, now);
    case LocalLogin(user, expected, rehash, login) => LocalLoginKeepsInv(t, user, expected, rehash, login);
    case OidcLogin(user, identity, login) =>
      if Active(t, user) && user in t.identities {
        WithSessionKeepsInv(t, user, Some(login));
      }
    case LinkOidc(user, identity, token, now, idleCutoff) => LinkOidcKeepsInv(t, user, identity, token, now, idleCutoff);
  }

  lemma CredentialStepKeepsInv(t: Auth, s: Step)
    requires Inv(t) && (s.SetLocal? || s.ChangePassword? || s.DropLocal? || s.DropOidc?)
    ensures Inv(Exec(t, s))
  {
    match s
    case SetLocal(user, username, hash, first, signOut, now) =>
      SetLocalKeepsInv(t, user, username, hash, first, signOut, now);
    case ChangePassword(user, expected, hash, session, now) => ChangePasswordKeepsInv(t, user, expected, hash, session, now);
    case DropLocal(user, actor, now) => DropLocalKeepsInv(t, user, actor, now);
    case DropOidc(user, actor, now) => DropOidcKeepsInv(t, user, actor, now);
  }

  lemma InviteStepKeepsInv(t: Auth, s: Step)
    requires Inv(t) && (s.Issue? || s.Replace? || s.Retire?)
    ensures Inv(Exec(t, s))
  {
    match s
    case Issue(user, invite, passwordReset) =>
      if CreateInvite(t, user, invite, passwordReset).1.Ok? {
        IssuedKeepsInv(t, user, invite);
      }
    case Replace(token, publicId, invite) => ReplaceKeepsInv(t, token, publicId, invite);
    case Retire(token, publicId, expired, now, at) =>
  }

  lemma MemberStepKeepsInv(t: Auth, s: Step)
    requires Inv(t) && (s.AddMember? || s.Unarchive? || s.UnarchiveWithInvite? || s.Remove?)
    ensures Inv(Exec(t, s))
  {
    match s
    case AddMember(name, role, invite) => AddMemberKeepsInv(t, name, role, invite);
    case Unarchive(user) =>
      if Archived(t, user) {
        RestoredKeepsInv(t, user);
      }
    case UnarchiveWithInvite(user, invite) =>
      if Archived(t, user) {
        RestoredKeepsInv(t, user);
        IssuedKeepsInv(Restored(t, user), user, invite);
      }
    case Remove(user, authored) => RemoveKeepsInv(t, user, authored);
  }

  lemma ExecKeepsInv(t: Auth, s: Step)
    requires Inv(t)
    ensures Inv(Exec(t, s))
  {
    if s.RedeemPassword? || s.RedeemOidc? || s.LocalLogin? || s.OidcLogin? || s.LinkOidc? {
      ClaimStepKeepsInv(t, s);
    } else if s.SetLocal? || s.ChangePassword? || s.DropLocal? || s.DropOidc? {
      CredentialStepKeepsInv(t, s);
    } else if s.Issue? || s.Replace? || s.Retire? {
      InviteStepKeepsInv(t, s);
    } else if s.SignOut? {
      assert Inv(t.(sessions := t.sessions - {s.token}));
    } else {
      MemberStepKeepsInv(t, s);
    }
  }

  // ---- Runs --------------------------------------------------------------------------------------

  function Run(t: Auth, steps: seq<Step>): Auth
    decreases |steps|
  {
    if steps == [] then t else Run(Exec(t, steps[0]), steps[1..])
  }

  lemma {:induction false} RunKeepsInv(t: Auth, steps: seq<Step>)
    requires Inv(t)
    ensures Inv(Run(t, steps))
    decreases |steps|
  {
    if steps != [] {
      ExecKeepsInv(t, steps[0]);
      RunKeepsInv(Exec(t, steps[0]), steps[1..]);
    }
  }

  /** Credential closure, over every run: a session implies a credential, a linked identity
      alone implies no current invite, archived members own nothing, and no invite is both
      used and revoked. */
  lemma CredentialsAreClosed(steps: seq<Step>, user: nat, token: string)
    ensures var t := Run(EMPTY, steps);
      && (token in t.sessions ==> t.sessions[token].user in t.accounts || t.sessions[token].user in t.identities)
      && (user in t.identities && user !in t.accounts ==> !HasCurrent(t, user))
      && (Archived(t, user) ==>
            user !in t.accounts && user !in t.identities &&
            (token in t.sessions ==> t.sessions[token].user != user) &&
            (token in t.invites ==> t.invites[token].user != user))
      && (token in t.invites ==> t.invites[token].usedAt.None? || t.invites[token].revokedAt.None?)
  {
    RunKeepsInv(EMPTY, steps);
    var t := Run(EMPTY, steps);
  }

  /** One step in the life of an invite: its member and handle are fixed, it is settled at most
      once, and what settled it stays. */
  ghost predicate InviteFollows(before: Invite, after: Invite) {
    && after.user == before.user && after.publicId == before.publicId && after.expiresAt == before.expiresAt
    && (!before.Current() ==> after == before)
    && (after != before ==> !after.Current())
    && (before.usedAt.Some? ==> after.usedAt == before.usedAt)
    && (before.revokedAt.Some? ==> after.revokedAt == before.revokedAt)
  }

  lemma RetiredFollows(t: Auth, user: nat, now: int, token: string)
    requires token in t.invites
    ensures InviteFollows(t.invites[token], Retired(t, user, now).invites[token])
  {
  }

  /** A claim writes the invites by consuming its own. */
  ghost predicate Claims(t: Auth, after: Auth, token: string, now: int) {
    after.invites == t.invites || (Claimable(t, token, now).Ok? && after.invites == Consumed(t, token, now).invites)
  }

  lemma PasswordClaim(t: Auth, token: string, username: string, hash: string, session: Option<NewSession>, now: int)
    ensures Claims(t, RedeemPasswordInvite(t, token, username, hash, session, now).0, token, now)
  {
  }

  lemma OidcClaim(t: Auth, token: string, identity: Identity, session: Option<NewSession>, now: int)
    ensures Claims(t, RedeemOidcInvite(t, token, identity, session, now).0, token, now)
  {
  }

  lemma ClaimFollows(t: Auth, after: Auth, token: string, now: int, other: string)
    requires Claims(t, after, token, now) && other in t.invites
    ensures other in after.invites && InviteFollows(t.invites[other], after.invites[other])
  {
  }

  /** A credential change writes the invites by retiring its member's. */
  ghost predicate Retires(t: Auth, after: Auth, user: nat, now: int) {
    after.invites == t.invites || after.invites == Retired(t, user, now).invites
  }

  lemma SetLocalRetires(t: Auth, user: nat, username: string, hash: string, first: bool, signOut: bool, now: int)
    ensures Retires(t, SetLocalCredential(t, user, username, hash, first, signOut, now).0, user, now)
  {
  }

  lemma ChangePasswordRetires(t: Auth, user: nat, expected: string, hash: string, session: Option<NewSession>, now: int)
    ensures Retires(t, ChangeVerifiedPassword(t, user, expected, hash, session, now).0, user, now)
  {
  }

  lemma DropLocalRetires(t: Auth, user: nat, actor: nat, now: int)
    ensures Retires(t, DeleteLocalCredential(t, user, actor, now).0, user, now)
  {
  }

  lemma LinkOidcRetires(t: Auth, user: nat, identity: Identity, token: string, now: int, idleCutoff: int)
    ensures Retires(t, LinkOidcAndRetireInvite(t, user, identity, token, now, idleCutoff).0, user, now)
  {
  }

  lemma DropOidcRetires(t: Auth, user: nat, actor: nat, now: int)
    ensures Retires(t, DeleteOidcIdentity(t, user, actor, now).0, user, now)
  {
  }

  lemma RetireFollows(t: Auth, after: Auth, user: nat, now: int, token: string)
    requires Retires(t, after, user, now) && token in t.invites
    ensures token in after.invites && InviteFollows(t.invites[token], after.invites[token])
  {
    RetiredFollows(t, user, now, token);
  }

  lemma ClaimSettles(t: Auth, s: Step, token: string)
    requires token in t.invites && (s.RedeemPassword? || s.RedeemOidc?)
    ensures token in Exec(t, s).invites && InviteFollows(t.invites[token], Exec(t, s).invites[token])
  {
    match s
    case RedeemPassword(claimed, username, hash, session, now) =>
      PasswordClaim(t, claimed, username, hash, session, now);
      ClaimFollows(t, Exec(t, s), claimed, now, token);
    case RedeemOidc(claimed, identity, session, now) =>
      OidcClaim(t, claimed, identity, session, now);
      ClaimFollows(t, Exec(t, s), claimed, now, token);
  }

  /** Steps that retire the current invites of a member. */
  predicate RetiresInvites(s: Step) {
    s.SetLocal? || s.ChangePassword? || s.DropLocal? || s.LinkOidc? || s.DropOidc?
  }

  lemma RetirementSettles(t: Auth, s: Step, token: string)
    requires token in t.invites && RetiresInvites(s)
    ensures token in Exec(t, s).invites && InviteFollows(t.invites[token], Exec(t, s).invites[token])
  {
    match s
    case SetLocal(user, username, hash, first, signOut, now) =>
      SetLocalRetires(t, user, username, hash, first, signOut, now);
      RetireFollows(t, Exec(t, s), user, now, token);
    case ChangePassword(user, expected, hash, session, now) =>
      ChangePasswordRetires(t, user, expected, hash, session, now);
      RetireFollows(t, Exec(t, s), user, now, token);
    case DropLocal(user, actor, now) =>
      DropLocalRetires(t, user, actor, now);
      RetireFollows(t, Exec(t, s), user, now, token);
    case LinkOidc(user, identity, session, now, idleCutoff) =>
      LinkOidcRetires(t, user, identity, session, now, idleCutoff);
      RetireFollows(t, Exec(t, s), user, now, token);
    case DropOidc(user, actor, now) =>
      DropOidcRetires(t, user, actor, now);
      RetireFollows(t, Exec(t, s), user, now, token);
  }

  /** A restore or a removal deletes the member's invites. */
  predicate DeletesInvitesOf(s: Step, user: nat) {
    (s.Unarchive? || s.UnarchiveWithInvite? || s.Remove?) && s.user == user
  }

  lemma InviteStepSettles(t: Auth, s: Step, token: string)
    requires token in t.invites && token in Exec(t, s).invites && (s.Issue? || s.Replace? || s.Retire?)
    ensures InviteFollows(t.invites[token], Exec(t, s).invites[token])
  {
  }

  lemma MemberStepSettles(t: Auth, s: Step, token: string)
    requires token in t.invites && token in Exec(t, s).invites && !DeletesInvitesOf(s, t.invites[token].user)
    requires s.AddMember? || s.Unarchive? || s.UnarchiveWithInvite? || s.Remove?
    ensures InviteFollows(t.invites[token], Exec(t, s).invites[token])
  {
  }

  lemma StepSettles(t: Auth, s: Step, token: string)
    requires token in t.invites && token in Exec(t, s).invites && !DeletesInvitesOf(s, t.invites[token].user)
    ensures InviteFollows(t.invites[token], Exec(t, s).invites[token])
  {
    if s.RedeemPassword? || s.RedeemOidc? {
      ClaimSettles(t, s, token);
    } else if RetiresInvites(s) {
      RetirementSettles(t, s, token);
    } else if s.Issue? || s.Replace? || s.Retire? {
      InviteStepSettles(t, s, token);
    } else if s.AddMember? || s.Unarchive? || s.UnarchiveWithInvite? || s.Remove? {
      MemberStepSettles(t, s, token);
    }
  }

  /** No step of the run deletes the invite. */
  predicate Kept(t: Auth, steps: seq<Step>, token: string)
    decreases |steps|
  {
    token in t.invites &&
    (steps == [] || (!DeletesInvitesOf(steps[0], t.invites[token].user) && Kept(Exec(t, steps[0]), steps[1..], token)))
  }

  /** The steps of the run that use or revoke the invite. */
  function Settlements(t: Auth, steps: seq<Step>, token: string): nat
    requires Kept(t, steps, token)
    decreases |steps|
  {
    if steps == [] then 0
    else
      var next := Exec(t, steps[0]);
      assert Kept(next, steps[1..], token);
      (if next.invites[token] != t.invites[token] then 1 else 0) + Settlements(next, steps[1..], token)
  }

  /** Over any run that does not delete it, an invite is used or revoked at most once, what
      settled it stays, and its member and handle never change. */
  lemma {:induction false} InvitesSettleOnce(t: Auth, steps: seq<Step>, token: string)
    requires Kept(t, steps, token)
    ensures Settlements(t, steps, token) <= 1
    ensures !t.invites[token].Current() ==> Settlements(t, steps, token) == 0
    ensures token in Run(t, steps).invites && InviteFollows(t.invites[token], Run(t, steps).invites[token])
    decreases |steps|
  {
    if steps != [] {
      var next := Exec(t, steps[0]);
      assert Kept(next, steps[1..], token);
      StepSettles(t, steps[0], token);
      InvitesSettleOnce(next, steps[1..], token);
    }
  }

  /** Two claims of one invite: at most one succeeds. */
  lemma InviteIsClaimedOnce(t: Auth, token: string, first: Step, second: Step)
    requires first.RedeemPassword? || first.RedeemOidc?
    requires first.token == token && token in t.invites
    requires first.RedeemPassword? ==>
      RedeemPasswordInvite(t, token, first.username, first.hash, first.session, first.now).1.Ok?
    requires first.RedeemOidc? ==> RedeemOidcInvite(t, token, first.identity, first.session, first.now).1.Ok?
    requires (second.RedeemPassword? || second.RedeemOidc?) && second.token == token
    ensures Exec(t, first).invites[token].usedAt == Some(first.now)
    ensures Exec(Exec(t, first), second) == Exec(t, first)
  {
  }
}
