/** What each session call answers, which session it ends, and that it leaves every other one alone. */
module SessionCalls {
  import opened Domain
  import opened Sessions

  /** Keys, records and listings of every session but one are as before. */
  ghost predicate OthersStand(a: Auth, next: Auth, user: Id, sid: Id) {
    && (forall jti | LiveKey(a, jti) &&
                     !(a.refresh[jti].value.userId == user && a.refresh[jti].value.sessionId == sid) ::
          LiveKey(next, jti) && next.refresh[jti] == a.refresh[jti])
    && (forall other | other in a.sessions && other != (user, sid) ::
          other in next.sessions && next.sessions[other] == a.sessions[other])
    && (forall u: Id :: IndexOf(next, u) - {sid} == IndexOf(a, u) - {sid})
    && (forall u: Id | u != user :: IndexOf(next, u) == IndexOf(a, u))
  }

  /** The session is over: no record, off the index, and no token of it can be redeemed. */
  ghost predicate Ended(a: Auth, user: Id, sid: Id) {
    !LiveSession(a, user, sid) && sid !in IndexOf(a, user) && Dead(a, user, sid)
  }

  /** A token of an ended session is refused after any further calls. */
  lemma EndedForGood(a: Auth, cs: seq<Call>, user: Id, sid: Id, t: Token)
    requires Ok(a) && Ended(a, user, sid) && t.sub == user && t.sid == sid
    ensures !Redeemable(Run(a, cs), t)
  {
    hide Ok, Dead, Redeemable, Run;
    DeadForever(a, cs, user, sid);
    DeadMeans(Run(a, cs), t);
  }

  // ---------------------------------------------------------------- logout

  /**
   * `logout` with a standing token ends its session: at once it is off the index, its tokens are refused after
   * whatever follows, and every other session stands.
   */
  lemma LogoutEnds(a: Auth, t: Token, cs: seq<Call>, other: Token)
    requires Ok(a) && Verifies(a, t) && LiveKey(a, t.jti)
    ensures Ended(Next(a, Logout(t)), t.sub, t.sid) && OthersStand(a, Next(a, Logout(t)), t.sub, t.sid)
    ensures other.sub == t.sub && other.sid == t.sid ==> !Redeemable(Run(Next(a, Logout(t)), cs), other)
  {
    var next := Next(a, Logout(t));
    assert KeyOk(a, t.jti);
    NoKeyLeft(a, next, t.sub, t.sid, t.jti);
    StandsWithout(a, next, t.sub, t.sid, t.jti);
    hide Next, Ok, Ended, OthersStand;
    NextKeeps(a, Logout(t));
    assert Ended(next, t.sub, t.sid);
    if other.sub == t.sub && other.sid == t.sid { EndedForGood(next, cs, t.sub, t.sid, other); }
  }

  /** Taking a session's current key leaves no standing key of it. */
  lemma NoKeyLeft(a: Auth, next: Auth, user: Id, sid: Id, jti: Id)
    requires Ok(a) && (user, sid) in a.sessions && a.sessions[(user, sid)].value.currentJti == jti && jti in a.signed &&
             a.signed[jti].sid == sid
    requires next.signed == a.signed && next.refresh == a.refresh - {jti} && next.clock == a.clock
    ensures Dead(next, user, sid)
  {
    forall other | other in next.signed && next.signed[other].sub == user && next.signed[other].sid == sid
      ensures !LiveKey(next, other)
    {
      if LiveKey(a, other) { assert KeyOk(a, other); }
    }
  }

  lemma StandsWithout(a: Auth, next: Auth, user: Id, sid: Id, jti: Id)
    requires Ok(a) && jti in a.signed && a.signed[jti].sub == user && a.signed[jti].sid == sid
    requires next == a.(refresh := a.refresh - {jti}, sessions := a.sessions - {(user, sid)},
                        index := Unlist(a, user, sid))
    ensures OthersStand(a, next, user, sid) && sid !in IndexOf(next, user) && !LiveSession(next, user, sid)
  {
  }

  /** Anything else a logout is given changes nothing that stands. */
  lemma LogoutElse(a: Auth, t: Token)
    requires !(Verifies(a, t) && LiveKey(a, t.jti))
    ensures var next := Next(a, Logout(t));
            next == a.(refresh := next.refresh) && forall jti :: LiveKey(next, jti) <==> LiveKey(a, jti)
    ensures var next := Next(a, Logout(t)); forall jti | LiveKey(a, jti) :: next.refresh[jti] == a.refresh[jti]
  {
  }

  // ---------------------------------------------------------------- revocation

  /** Revoking a standing session ends it and no other; a session that does not stand is left as it is. */
  lemma RevokeEnds(a: Auth, user: Id, sid: Id, cs: seq<Call>, other: Token)
    requires Ok(a)
    ensures var next := Next(a, Revoke(user, sid));
            if LiveSession(a, user, sid) then Ended(next, user, sid) && OthersStand(a, next, user, sid)
            else next == a
    ensures LiveSession(a, user, sid) && other.sub == user && other.sid == sid ==>
              !Redeemable(Run(Next(a, Revoke(user, sid)), cs), other)
  {
    var next := Next(a, Revoke(user, sid));
    if LiveSession(a, user, sid) {
      var jti := a.sessions[(user, sid)].value.currentJti;
      NoKeyLeft(a, next, user, sid, jti);
      RevokedStands(a, next, user, sid, jti);
      hide Next, Ok, Ended, OthersStand;
      NextKeeps(a, Revoke(user, sid));
      assert Ended(next, user, sid);
      if other.sub == user && other.sid == sid { EndedForGood(next, cs, user, sid, other); }
    }
  }

  /** The key of one session is no other session's. */
  lemma RevokedStands(a: Auth, next: Auth, user: Id, sid: Id, jti: Id)
    requires Ok(a) && (user, sid) in a.sessions && a.sessions[(user, sid)].value.currentJti == jti
    requires next == a.(refresh := a.refresh - {jti}, sessions := a.sessions - {(user, sid)},
                        index := Unlist(a, user, sid))
    ensures OthersStand(a, next, user, sid) && sid !in IndexOf(next, user) && !LiveSession(next, user, sid)
  {
    assert jti in a.signed && a.signed[jti].sub == user && a.signed[jti].sid == sid;
    StandsWithout(a, next, user, sid, jti);
  }

  /** Revoking all sessions of a user raises the version of the account and empties its list. */
  lemma RevokeAllEnds(a: Auth, user: Id, sid: Id)
    requires Ok(a) && user in a.users
    ensures var next := Next(a, RevokeAll(user));
            next.users == a.users[user := a.users[user].(version := a.users[user].version + 1)] &&
            IndexOf(next, user) == {} && (sid in IndexOf(a, user) ==> !LiveSession(next, user, sid)) &&
            forall jti | LiveKey(next, jti) :: next.refresh[jti].value.userId != user
  {
    hide KeyOk;
    RevokeAllKeeps(a, user);
  }

  /** The listing shows exactly the listed sessions that stand, and only the others are taken off the list. */
  lemma ListIff(a: Auth, user: Id, sid: Id)
    requires Ok(a)
    ensures sid in Shown(a, user, IndexOf(a, user)) <==> sid in IndexOf(a, user) && LiveSession(a, user, sid)
    ensures sid in IndexOf(Next(a, ListSessions(user)), user) <==> sid in IndexOf(a, user) && LiveSession(a, user, sid)
    ensures var next := Next(a, ListSessions(user));
            next.refresh == a.refresh && next.sessions == a.sessions && next.users == a.users &&
            forall u: Id | u != user :: IndexOf(next, u) == IndexOf(a, u)
  {
  }

  /** Revoking all sessions of a user touches nobody else's. */
  lemma RevokeAllSpares(a: Auth, user: Id)
    requires Ok(a)
    ensures var next := Next(a, RevokeAll(user));
            (forall jti | LiveKey(a, jti) && a.refresh[jti].value.userId != user ::
               LiveKey(next, jti) && next.refresh[jti] == a.refresh[jti]) &&
            (forall other | other in a.sessions && other.0 != user ::
               other in next.sessions && next.sessions[other] == a.sessions[other]) &&
            (forall u: Id | u != user :: IndexOf(next, u) == IndexOf(a, u))
  {
    var next := Next(a, RevokeAll(user));
    forall jti | LiveKey(a, jti) && a.refresh[jti].value.userId != user
      ensures LiveKey(next, jti) && next.refresh[jti] == a.refresh[jti]
    {
      assert a.signed[jti].sub == a.refresh[jti].value.userId;
      assert jti !in CurrentJtis(a, user, IndexOf(a, user));
    }
  }

  // ---------------------------------------------------------------- issuing

  /** A new token is issued exactly for a redeemable one, and a blocked user is told so. */
  lemma RefreshIff(a: Auth, t: Token, jti: Id)
    requires Ok(a) && jti !in a.signed
    ensures var reply := RefreshTx(a, t, jti).1;
            (reply.Issued? <==> Redeemable(a, t)) &&
            (reply == Reply.Forbidden <==> Redeemable(Unblocked(a, t.sub), t) && a.users[t.sub].blocked)
    ensures RefreshTx(a, t, jti).1.Issued? ==>
              Next(a, Refresh(t, jti)).refresh[jti].value ==
                a.refresh[t.jti].value.(currentJti := jti, lastSeenAt := a.clock)
  {
  }

  /** The same accounts, this one not blocked. */
  function Unblocked(a: Auth, user: Id): Auth {
    if user in a.users then a.(users := a.users[user := a.users[user].(blocked := false)]) else a
  }

  /** Rotating one session leaves every other one alone. */
  lemma RefreshSpares(a: Auth, t: Token, jti: Id)
    requires Ok(a) && jti !in a.signed && Redeemable(a, t)
    ensures OthersStand(a, Next(a, Refresh(t, jti)), t.sub, t.sid)
  {
    assert KeyOk(a, t.jti);
  }

  /** Whoever may log in gets a session of his own, listed and redeemable; nobody else does. */
  lemma LoginIff(a: Auth, user: Id, installation: string, sid: Id, jti: Id)
    requires Ok(a) && jti !in a.signed && UnusedSid(a, sid)
    ensures var next := Next(a, Login(user, installation, sid, jti));
            var token := LoginTx(a, user, installation, sid, jti).1;
            if user in a.users && !a.users[user].deleted && !a.users[user].blocked
            then
              token.Issued? && token.token.sub == user && token.token.sid == sid && token.token.jti == jti &&
              Redeemable(next, token.token) && sid in IndexOf(next, user) && LiveSession(next, user, sid) &&
              next.sessions[(user, sid)].value == Record(user, sid, jti, installation, a.clock, a.clock) &&
              OthersStand(a, next, user, sid)
            else
              next == a &&
              token == if user in a.users && !a.users[user].deleted then Reply.Forbidden else Unauthorized
  {
    assert TTL > 0;
    if user in a.users { IssueSpares(a, user, installation, sid, a.clock, jti); }
    hide Ok, OthersStand;
  }

  lemma IssueSpares(a: Auth, user: Id, installation: string, sid: Id, createdAt: Time, jti: Id)
    requires Ok(a) && user in a.users && jti !in a.signed
    ensures OthersStand(a, Issue(a, user, installation, sid, createdAt, jti).0, user, sid)
  {
    hide KeyOk;
    assert jti !in a.refresh;
  }
}
