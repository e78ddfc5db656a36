/** Refresh-token families: the Redis keys of `AuthService`, each call taken as one step. */
module Sessions {
  import opened Domain

  datatype Account = Account(version: nat, blocked: bool, deleted: bool)

  /** What a signed refresh token carries. */
  datatype Token = Token(sub: Id, jti: Id, sid: Id, version: nat, expiresAt: Time)

  datatype Record = Record(userId: Id, sessionId: Id, currentJti: Id, installation: string, createdAt: Time,
      lastSeenAt: Time)

  /** A Redis value with the moment it expires. */
  datatype Kept<T> = Kept(value: T, expiresAt: Time)

  /** `signed` holds every token the signing key has signed, by its id: nobody can make another one. */
  datatype Auth = Auth(
    users: map<Id, Account>, refresh: map<Id, Kept<Record>>, sessions: map<(Id, Id), Kept<Record>>,
    index: map<Id, Kept<set<Id>>>, signed: map<Id, Token>, clock: Time)

  datatype Reply = Issued(token: Token) | LoggedOut | Unauthorized | Forbidden

  const TTL: nat := 30 * 24 * 60 * 60

  predicate Alive<T>(kept: Kept<T>, now: Time) {
    kept.expiresAt > now
  }

  /** The key of a refresh token still stands. */
  predicate LiveKey(a: Auth, jti: Id) {
    jti in a.refresh && Alive(a.refresh[jti], a.clock)
  }

  predicate LiveSession(a: Auth, user: Id, sid: Id) {
    (user, sid) in a.sessions && Alive(a.sessions[(user, sid)], a.clock)
  }

  function IndexOf(a: Auth, user: Id): set<Id> {
    if user in a.index && Alive(a.index[user], a.clock) then a.index[user].value else {}
  }

  predicate Verifies(a: Auth, t: Token) {
    t.jti in a.signed && a.signed[t.jti] == t && t.expiresAt > a.clock
  }

  /** `srem`: the index keeps its own expiry. */
  function Unlist(a: Auth, user: Id, sid: Id): map<Id, Kept<set<Id>>> {
    if user in a.index then a.index[user := Kept(a.index[user].value - {sid}, a.index[user].expiresAt)] else a.index
  }

  // ---------------------------------------------------------------- calls

  function Issue(a: Auth, user: Id, installation: string, sid: Id, createdAt: Time, jti: Id): (r: (Auth, Token))
    requires user in a.users
  {
    var until := a.clock + TTL;
    var token := Token(user, jti, sid, a.users[user].version, until);
    var kept := Kept(Record(user, sid, jti, installation, createdAt, a.clock), until);
    (a.(refresh := a.refresh[jti := kept], sessions := a.sessions[(user, sid) := kept],
        index := a.index[user := Kept(IndexOf(a, user) + {sid}, until)], signed := a.signed[jti := token]), token)
  }

  predicate UnusedSid(a: Auth, sid: Id) {
    forall jti | jti in a.signed :: a.signed[jti].sid != sid
  }

  function LoginTx(a: Auth, user: Id, installation: string, sid: Id, jti: Id): (Auth, Reply) {
    if user !in a.users || a.users[user].deleted then (a, Unauthorized)
    else if a.users[user].blocked then (a, Reply.Forbidden)
    else
      var (next, token) := Issue(a, user, installation, sid, a.clock, jti);
      (next, Issued(token))
  }

  function RevokeTx(a: Auth, user: Id, sid: Id): Auth {
    if !LiveSession(a, user, sid) || a.sessions[(user, sid)].value.userId != user then a
    else
      a.(refresh := a.refresh - {a.sessions[(user, sid)].value.currentJti}, sessions := a.sessions - {(user, sid)},
         index := Unlist(a, user, sid))
  }

  function RefreshTx(a: Auth, t: Token, jti: Id): (Auth, Reply) {
    if !Verifies(a, t) then (a, Unauthorized)
    else
      var taken := a.(refresh := a.refresh - {t.jti});
      if !LiveKey(a, t.jti) || a.refresh[t.jti].value.userId != t.sub then (RevokeTx(taken, t.sub, t.sid), Unauthorized)
      else if t.sub !in a.users || t.version != a.users[t.sub].version || a.users[t.sub].deleted
      then (taken, Unauthorized)
      else if a.users[t.sub].blocked then (taken, Reply.Forbidden)
      else
        var session := a.refresh[t.jti].value;
        var (next, token) := Issue(taken, t.sub, session.installation, session.sessionId, session.createdAt, jti);
        (next, Issued(token))
  }

  function LogoutTx(a: Auth, t: Token): Auth {
    if !Verifies(a, t) then a
    else if !LiveKey(a, t.jti) then a.(refresh := a.refresh - {t.jti})
    else
      var session := a.refresh[t.jti].value;
      a.(refresh := a.refresh - {t.jti}, sessions := a.sessions - {(session.userId, session.sessionId)},
         index := Unlist(a, session.userId, session.sessionId))
  }

  /** The refresh keys `revokeAllSessions` collects. */
  function CurrentJtis(a: Auth, user: Id, sids: set<Id>): set<Id> {
    set sid | sid in sids && LiveSession(a, user, sid) && a.sessions[(user, sid)].value.userId == user ::
      a.sessions[(user, sid)].value.currentJti
  }

  function RevokeAllTx(a: Auth, user: Id): Auth {
    if user !in a.users then a
    else
      var sids := IndexOf(a, user);
      a.(users := a.users[user := a.users[user].(version := a.users[user].version + 1)],
         refresh := a.refresh - CurrentJtis(a, user, sids),
         sessions := a.sessions - (set sid | sid in sids :: (user, sid)),
         index := a.index - {user})
  }

  /** The sessions `listSessions` shows; it takes the others off the index. */
  function Shown(a: Auth, user: Id, sids: set<Id>): set<Id> {
    set sid | sid in sids && LiveSession(a, user, sid) && a.sessions[(user, sid)].value.userId == user
  }

  function ListTx(a: Auth, user: Id): Auth {
    if user !in a.index || !Alive(a.index[user], a.clock) then a
    else a.(index := a.index[user := Kept(Shown(a, user, a.index[user].value), a.index[user].expiresAt)])
  }

  /** Ids are UUIDs: a new one was never signed before. */
  datatype Call =
    | Tick(to: Time)
    | SetAccount(user: Id, account: Account)
    | Login(user: Id, installation: string, sid: Id, jti: Id)
    | Refresh(token: Token, jti: Id)
    | Logout(token: Token)
    | Revoke(user: Id, sid: Id)
    | RevokeAll(user: Id)
    | ListSessions(user: Id)

  function Next(a: Auth, c: Call): Auth {
    match c
    case Tick(to) => if to >= a.clock then a.(clock := to) else a
    case SetAccount(user, account) =>
      if user !in a.users || a.users[user].version <= account.version then a.(users := a.users[user := account]) else a
    case Login(user, installation, sid, jti) =>
      if jti !in a.signed && UnusedSid(a, sid) then LoginTx(a, user, installation, sid, jti).0 else a
    case Refresh(token, jti) => if jti !in a.signed then RefreshTx(a, token, jti).0 else a
    case Logout(token) => LogoutTx(a, token)
    case Revoke(user, sid) => RevokeTx(a, user, sid)
    case RevokeAll(user) => RevokeAllTx(a, user)
    case ListSessions(user) => ListTx(a, user)
  }

  function Run(a: Auth, cs: seq<Call>): Auth
    decreases |cs|
  {
    if cs == [] then a else Run(Next(a, cs[0]), cs[1..])
  }

  function Empty(clock: Time): Auth {
    Auth(map[], map[], map[], map[], map[], clock)
  }

  // ---------------------------------------------------------------- invariant

  /** A standing refresh key is the current one of a standing session that the user's index lists. */
  ghost predicate KeyOk(a: Auth, jti: Id)
    requires jti in a.refresh
  {
    var kept := a.refresh[jti];
    var r := kept.value;
    && (r.userId, r.sessionId) in a.sessions && a.sessions[(r.userId, r.sessionId)] == kept && r.currentJti == jti
    && r.userId in a.index && r.sessionId in a.index[r.userId].value && a.index[r.userId].expiresAt >= kept.expiresAt
  }

  ghost predicate Ok(a: Auth) {
    && (forall jti | LiveKey(a, jti) :: KeyOk(a, jti))
    && (forall jti | jti in a.refresh ::
          a.refresh[jti].expiresAt <= a.clock + TTL &&
          jti in a.signed && a.signed[jti].sub == a.refresh[jti].value.userId &&
              a.signed[jti].sid == a.refresh[jti].value.sessionId)
    && (forall user, sid | (user, sid) in a.sessions ::
          a.sessions[(user, sid)].value.userId == user && a.sessions[(user, sid)].value.sessionId == sid &&
          a.sessions[(user, sid)].value.currentJti in a.signed &&
              a.signed[a.sessions[(user, sid)].value.currentJti].sid == sid &&
              a.signed[a.sessions[(user, sid)].value.currentJti].sub == user)
    && (forall jti | jti in a.signed :: a.signed[jti].jti == jti)
  }

  /** Accepted by `refresh` right now. */
  predicate Redeemable(a: Auth, t: Token) {
    Verifies(a, t) && LiveKey(a, t.jti) && a.refresh[t.jti].value.userId == t.sub &&
    t.sub in a.users && t.version == a.users[t.sub].version && !a.users[t.sub].deleted && !a.users[t.sub].blocked
  }

  /** No token of the session can be redeemed any more. */
  ghost predicate Dead(a: Auth, user: Id, sid: Id) {
    (exists jti :: jti in a.signed && a.signed[jti].sid == sid) &&
    forall jti | jti in a.signed && a.signed[jti].sub == user && a.signed[jti].sid == sid :: !LiveKey(a, jti)
  }

  lemma IssueKeeps(a: Auth, user: Id, installation: string, sid: Id, createdAt: Time, jti: Id)
    requires Ok(a) && user in a.users && jti !in a.signed
    requires forall other | LiveKey(a, other) ::
             !(a.refresh[other].value.userId == user &&
             a.refresh[other].value.sessionId == sid)
    ensures Ok(Issue(a, user, installation, sid, createdAt, jti).0)
  {
    var next := Issue(a, user, installation, sid, createdAt, jti).0;
    forall other | LiveKey(next, other) ensures KeyOk(next, other) {
      if other != jti { assert KeyOk(a, other); }
    }
  }

  lemma TakeKeeps(a: Auth, jti: Id)
    requires Ok(a)
    ensures Ok(a.(refresh := a.refresh - {jti}))
  {
    var next := a.(refresh := a.refresh - {jti});
    forall other | LiveKey(next, other) ensures KeyOk(next, other) { assert LiveKey(a, other); }
  }

  lemma RevokeKeeps(a: Auth, user: Id, sid: Id)
    requires Ok(a)
    ensures Ok(RevokeTx(a, user, sid))
  {
    var next := RevokeTx(a, user, sid);
    forall other | LiveKey(next, other) ensures KeyOk(next, other) { assert LiveKey(a, other) && KeyOk(a, other); }
  }

  lemma LogoutKeeps(a: Auth, t: Token)
    requires Ok(a)
    ensures Ok(LogoutTx(a, t))
  {
    var next := LogoutTx(a, t);
    if LiveKey(a, t.jti) { assert KeyOk(a, t.jti); }
    forall other | LiveKey(next, other) ensures KeyOk(next, other) { assert LiveKey(a, other) && KeyOk(a, other); }
  }

  lemma RevokeAllKeeps(a: Auth, user: Id)
    requires Ok(a)
    ensures Ok(RevokeAllTx(a, user))
    ensures user in a.users ==> forall jti | LiveKey(RevokeAllTx(a, user), jti) ::
            RevokeAllTx(a, user).refresh[jti].value.userId != user
  {
    var next := RevokeAllTx(a, user);
    forall other | LiveKey(next, other)
      ensures KeyOk(next, other) && (user in a.users ==> next.refresh[other].value.userId != user)
    {
      Listed(a, other);
    }
  }

  /** The revocation's walk over the index collects every standing key of the user. */
  lemma Listed(a: Auth, jti: Id)
    requires Ok(a) && LiveKey(a, jti)
    ensures KeyOk(a, jti) && var user := a.refresh[jti].value.userId; jti in CurrentJtis(a, user, IndexOf(a, user))
  {
    var r := a.refresh[jti].value;
    assert KeyOk(a, jti);
    assert r.sessionId in IndexOf(a, r.userId);
  }

  lemma RefreshKeeps(a: Auth, t: Token, jti: Id)
    requires Ok(a) && jti !in a.signed
    ensures Ok(RefreshTx(a, t, jti).0)
  {
    var taken := a.(refresh := a.refresh - {t.jti});
    TakeKeeps(a, t.jti);
    RevokeKeeps(taken, t.sub, t.sid);
    if LiveKey(a, t.jti) && t.sub in a.users && a.refresh[t.jti].value.userId == t.sub {
      var session := a.refresh[t.jti].value;
      forall other | LiveKey(taken, other)
        ensures !(taken.refresh[other].value.userId == t.sub &&
                taken.refresh[other].value.sessionId == session.sessionId)
      {
        assert KeyOk(a, other) && KeyOk(a, t.jti);
      }
      IssueKeeps(taken, t.sub, session.installation, session.sessionId, session.createdAt, jti);
    }
  }

  /** Listing takes nothing off the index that a standing key needs. */
  lemma ListKeeps(a: Auth, user: Id)
    requires Ok(a)
    ensures Ok(ListTx(a, user))
  {
    var next := ListTx(a, user);
    forall jti | LiveKey(next, jti) ensures KeyOk(next, jti) { assert LiveKey(a, jti) && KeyOk(a, jti); }
  }

  lemma NextKeeps(a: Auth, c: Call)
    requires Ok(a)
    ensures Ok(Next(a, c))
  {
    hide KeyOk, Unlist;
    match c
    case Tick(to) =>
      forall jti | LiveKey(Next(a, c), jti) ensures KeyOk(Next(a, c), jti) { SameKeys(a, Next(a, c), jti); }
    case SetAccount(user, account) =>
      forall jti | LiveKey(Next(a, c), jti) ensures KeyOk(Next(a, c), jti) { SameKeys(a, Next(a, c), jti); }
    case Login(user, installation, sid, jti) =>
      if jti !in a.signed && UnusedSid(a, sid) && user in a.users {
        IssueKeeps(a, user, installation, sid, a.clock, jti);
      }
    case Refresh(token, jti) => if jti !in a.signed { RefreshKeeps(a, token, jti); }
    case Logout(token) => LogoutKeeps(a, token);
    case Revoke(user, sid) => RevokeKeeps(a, user, sid);
    case RevokeAll(user) => RevokeAllKeeps(a, user);
    case ListSessions(user) => ListKeeps(a, user);
  }

  lemma SameKeys(a: Auth, next: Auth, jti: Id)
    requires Ok(a) && LiveKey(next, jti) && next.clock >= a.clock
    requires next.refresh == a.refresh && next.sessions == a.sessions && next.index == a.index
    ensures KeyOk(next, jti)
  {
    assert LiveKey(a, jti) && KeyOk(a, jti);
  }

  lemma {:induction false} RunKeeps(a: Auth, cs: seq<Call>)
    requires Ok(a)
    ensures Ok(Run(a, cs))
    decreases |cs|
  {
    hide Ok, Next;
    if cs != [] {
      NextKeeps(a, cs[0]);
      RunKeeps(Next(a, cs[0]), cs[1..]);
    }
  }

  ghost predicate Reachable(a: Auth) {
    exists clock, cs :: Run(Empty(clock), cs) == a
  }

  lemma ReachableOk(a: Auth)
    requires Reachable(a)
    ensures Ok(a)
  {
    var clock, cs :| Run(Empty(clock), cs) == a;
    RunKeeps(Empty(clock), cs);
  }

  // ---------------------------------------------------------------- main results

  /** A redeemable token is its session's current one, its session is listed, and it is the only one of the session. */
  lemma OnePerSession(a: Auth, t: Token, other: Token)
    requires Reachable(a) && Redeemable(a, t)
    ensures t.sid in IndexOf(a, t.sub) && LiveSession(a, t.sub, t.sid) &&
            a.sessions[(t.sub, t.sid)].value.currentJti == t.jti
    ensures Redeemable(a, other) && other.sub == t.sub && other.sid == t.sid ==> other == t
  {
    hide Reachable;
    ReachableOk(a);
    assert KeyOk(a, t.jti);
    if Redeemable(a, other) { assert KeyOk(a, other.jti); }
  }

  /** After a revocation of all sessions no token of the user is redeemable, not even by its key. */
  lemma RevokeAllMissesNone(a: Auth, user: Id, t: Token)
    requires Reachable(a) && user in a.users && t.sub == user
    ensures var next := RevokeAllTx(a, user); !Redeemable(next, t) && (Verifies(a, t) ==> !LiveKey(next, t.jti))
  {
    hide Reachable;
    ReachableOk(a);
    hide RevokeAllTx;
    RevokeAllKeeps(a, user);
    if LiveKey(RevokeAllTx(a, user), t.jti) {
      assert RevokeAllTx(a, user).refresh[t.jti].value.userId != user;
      KeysFrom(a, user);
    }
  }

  lemma KeysFrom(a: Auth, user: Id)
    requires Ok(a)
    ensures var next := RevokeAllTx(a, user);
            next.signed == a.signed && forall jti | jti in next.refresh ::
                jti in a.refresh &&
                next.refresh[jti] == a.refresh[jti]
  {
  }

  /** Presenting a token whose key is gone kills its session. */
  lemma ReuseKills(a: Auth, t: Token, jti: Id)
    requires Ok(a) && Verifies(a, t) && !LiveKey(a, t.jti)
    ensures RefreshTx(a, t, jti).1 == Unauthorized && Dead(RefreshTx(a, t, jti).0, t.sub, t.sid)
  {
    var next := RefreshTx(a, t, jti).0;
    assert t.jti in next.signed && next.signed[t.jti].sid == t.sid;
    forall other | other in next.signed && next.signed[other].sub == t.sub && next.signed[other].sid == t.sid
      ensures !LiveKey(next, other)
    {
      if LiveKey(a, other) { assert KeyOk(a, other); }
    }
  }

  /** Only a refresh with a standing key extends a session, so a dead one stays dead. */
  lemma DeadStays(a: Auth, c: Call, user: Id, sid: Id)
    requires Ok(a) && Dead(a, user, sid)
    ensures Dead(Next(a, c), user, sid)
  {
    var next := Next(a, c);
    var known :| known in a.signed && a.signed[known].sid == sid;
    SignedGrows(a, c);
    assert known in next.signed && next.signed[known].sid == sid;
    forall jti | jti in next.signed && next.signed[jti].sub == user && next.signed[jti].sid == sid
      ensures !LiveKey(next, jti)
    {
      if jti in a.signed { assert !LiveKey(a, jti); KeysOnlyIssued(a, c, jti); }
      else { NotExtended(a, c, jti, user, sid); }
    }
  }

  lemma SignedGrows(a: Auth, c: Call)
    ensures forall jti | jti in a.signed :: jti in Next(a, c).signed && Next(a, c).signed[jti] == a.signed[jti]
  {
  }

  /** A key that is gone never comes back. */
  lemma KeysOnlyIssued(a: Auth, c: Call, jti: Id)
    requires jti in a.signed && !LiveKey(a, jti)
    ensures !LiveKey(Next(a, c), jti)
  {
  }

  lemma NotExtended(a: Auth, c: Call, jti: Id, user: Id, sid: Id)
    requires Ok(a) && Dead(a, user, sid) && jti !in a.signed && jti in Next(a, c).signed
    ensures Next(a, c).signed[jti].sub != user || Next(a, c).signed[jti].sid != sid
  {
    var known :| known in a.signed && a.signed[known].sid == sid;
    if c.Refresh? { assert Verifies(a, c.token) ==> a.signed[c.token.jti] == c.token; }
  }

  lemma {:induction false} DeadForever(a: Auth, cs: seq<Call>, user: Id, sid: Id)
    requires Ok(a) && Dead(a, user, sid)
    ensures Dead(Run(a, cs), user, sid)
    decreases |cs|
  {
    hide Ok, Dead, Next;
    if cs != [] {
      NextKeeps(a, cs[0]);
      DeadStays(a, cs[0], user, sid);
      DeadForever(Next(a, cs[0]), cs[1..], user, sid);
    }
  }

  lemma {:induction false} GoneForever(a: Auth, cs: seq<Call>, jti: Id)
    requires jti in a.signed && !LiveKey(a, jti)
    ensures jti in Run(a, cs).signed && Run(a, cs).signed[jti] == a.signed[jti] && !LiveKey(Run(a, cs), jti)
    decreases |cs|
  {
    hide Next, LiveKey;
    if cs != [] {
      SignedGrows(a, cs[0]);
      KeysOnlyIssued(a, cs[0], jti);
      GoneForever(Next(a, cs[0]), cs[1..], jti);
    }
  }

  /**
   * A token that was redeemed and is presented again, after any calls but before it expires, kills its
   * session: whatever follows, no token of the session, however often it was rotated, can be redeemed.
   */
  lemma ReuseKillsFamily(a: Auth, t: Token, first: Id, between: seq<Call>, again: Id, after: seq<Call>, other: Token)
    requires Reachable(a) && Redeemable(a, t) && first !in a.signed
    requires var used := Run(Next(a, Refresh(t, first)), between); t.expiresAt > used.clock && again !in used.signed
    requires other.sub == t.sub && other.sid == t.sid
    ensures var used := Run(Next(a, Refresh(t, first)), between);
            !Redeemable(Run(Next(used, Refresh(t, again)), after), other)
  {
    hide Reachable, RefreshTx;
    ReachableOk(a);
    var rotated := Next(a, Refresh(t, first));
    Rotates(a, t, first);
    NextKeeps(a, Refresh(t, first));
    hide Next, Ok, Dead;
    RunKeeps(rotated, between);
    GoneForever(rotated, between, t.jti);
    var used := Run(rotated, between);
    ReuseKills(used, t, again);
    PresentedAgain(used, t, again);
    NextKeeps(used, Refresh(t, again));
    DeadForever(Next(used, Refresh(t, again)), after, t.sub, t.sid);
    DeadMeans(Run(Next(used, Refresh(t, again)), after), other);
  }

  lemma PresentedAgain(a: Auth, t: Token, jti: Id)
    requires jti !in a.signed
    ensures Next(a, Refresh(t, jti)) == RefreshTx(a, t, jti).0
  {
  }

  lemma DeadMeans(a: Auth, t: Token)
    requires Dead(a, t.sub, t.sid)
    ensures !Redeemable(a, t)
  {
  }

  /** A redeemed token is answered with a new one of the same session, and its own key is gone. */
  lemma Rotates(a: Auth, t: Token, jti: Id)
    requires Ok(a) && Redeemable(a, t) && jti !in a.signed
    ensures var (next, reply) := RefreshTx(a, t, jti);
            reply.Issued? && reply.token.sub == t.sub && reply.token.sid == t.sid && Redeemable(next, reply.token) &&
            !LiveKey(Next(a, Refresh(t, jti)), t.jti) && t.jti in Next(a, Refresh(t, jti)).signed &&
            Next(a, Refresh(t, jti)).signed[t.jti] == t
  {
    assert TTL > 0;
  }

  /**
   * A token whose key is gone kills its session exactly while it still verifies: an expired one is refused before
   * the session is looked at.
   */
  lemma ReuseKillsIff(a: Auth, t: Token, jti: Id)
    requires Ok(a) && t.jti in a.signed && a.signed[t.jti] == t && !LiveKey(a, t.jti)
    ensures Dead(RefreshTx(a, t, jti).0, t.sub, t.sid) <==> t.expiresAt > a.clock || Dead(a, t.sub, t.sid)
  {
    if Verifies(a, t) { ReuseKills(a, t, jti); }
  }

  /**
   * The other side is reached: a token rotated in its last second and presented again when it has just expired
   * leaves the session standing, with the rotated token still to be redeemed.
   */
  lemma ExpiredReuseSpares() returns (a: Auth, first: Token, rotated: Token)
    ensures Reachable(a) && first.jti in a.signed && a.signed[first.jti] == first && !LiveKey(a, first.jti)
    ensures rotated.sub == first.sub && rotated.sid == first.sid
    ensures forall jti | jti !in a.signed ::
              Redeemable(Next(a, Refresh(first, jti)), rotated) &&
              !Dead(Next(a, Refresh(first, jti)), first.sub, first.sid)
  {
    first, rotated := Token(1, 3, 2, 0, TTL), Token(1, 4, 2, 0, 2 * TTL - 1);
    var cs := [SetAccount(1, Account(0, false, false)), Login(1, "phone", 2, 3), Tick(TTL - 1), Refresh(first, 4),
      Tick(TTL)];
    var a2 := Next(Next(Empty(0), cs[0]), cs[1]);
    assert Verifies(a2, first) && LiveKey(a2, 3);
    var a3 := Next(a2, cs[2]);
    assert Redeemable(a3, first);
    var a4 := Next(a3, cs[3]);
    assert Redeemable(a4, rotated) && !LiveKey(a4, 3);
    a := Next(a4, cs[4]);
    assert Redeemable(a, rotated) && !LiveKey(a, 3) && !Verifies(a, first);
    FiveCalls(Empty(0), cs);
    hide Next;
    assert Run(Empty(0), cs) == a;
  }

  lemma FiveCalls(a: Auth, cs: seq<Call>)
    requires |cs| == 5
    ensures Run(a, cs) == Next(Next(Next(Next(Next(a, cs[0]), cs[1]), cs[2]), cs[3]), cs[4])
  {
    hide Next;
    var a4 := Next(Next(Next(Next(a, cs[0]), cs[1]), cs[2]), cs[3]);
    assert cs[1..][0] == cs[1] && cs[2..][0] == cs[2] && cs[3..][0] == cs[3] && cs[4..][0] == cs[4];
    assert cs[1..][1..] == cs[2..] && cs[2..][1..] == cs[3..] && cs[3..][1..] == cs[4..] && cs[4..][1..] == [];
    assert Run(a4, cs[4..]) == Next(a4, cs[4]);
    assert Run(Next(Next(Next(a, cs[0]), cs[1]), cs[2]), cs[3..]) == Next(a4, cs[4]);
    assert Run(Next(Next(a, cs[0]), cs[1]), cs[2..]) == Next(a4, cs[4]);
  }

  lemma PruneOne(a: Auth, user: Id, sids: set<Id>, left: set<Id>, sid: Id)
    requires sid in left && left <= sids
    ensures sid !in Shown(a, user, sids - left)
    ensures Shown(a, user, sids - (left - {sid})) ==
              if LiveSession(a, user, sid) && a.sessions[(user, sid)].value.userId == user
              then Shown(a, user, sids - left) + {sid}
              else Shown(a, user, sids - left)
  {
    assert sids - (left - {sid}) == (sids - left) + {sid};
  }

  // ---------------------------------------------------------------- the service

  class AuthService {
    var users: map<Id, Account>
    var refresh: map<Id, Kept<Record>>
    var sessions: map<(Id, Id), Kept<Record>>
    var index: map<Id, Kept<set<Id>>>
    var signed: map<Id, Token>
    var clock: Time

    function State(): Auth
      reads this
    {
      Auth(users, refresh, sessions, index, signed, clock)
    }

    ghost predicate Valid()
      reads this
    {
      Ok(State())
    }

    /** `get` of a key that may have expired. */
    function GetSession(user: Id, sid: Id): Option<Record>
      reads this
    {
      if (user, sid) in sessions && sessions[(user, sid)].expiresAt > clock
      then Some(sessions[(user, sid)].value) else None
    }

    method Smembers(user: Id) returns (sids: set<Id>)
      ensures sids == IndexOf(State(), user)
    {
      if user !in index || index[user].expiresAt <= clock { return {}; }
      return index[user].value;
    }

    method Srem(user: Id, sid: Id)
      modifies this`index
      ensures State() == old(State()).(index := Unlist(old(State()), user, sid))
    {
      if user in index {
        index := index[user := Kept(index[user].value - {sid}, index[user].expiresAt)];
      }
    }

    method IssueTokens(user: Id, installation: string, sid: Id, createdAt: Time, jti: Id) returns (token: Token)
      requires user in users
      modifies this`refresh, this`sessions, this`index, this`signed
      ensures (State(), token) == Issue(old(State()), user, installation, sid, createdAt, jti)
    {
      var until := clock + TTL;
      token := Token(user, jti, sid, users[user].version, until);
      signed := signed[jti := token];
      var session := Record(user, sid, jti, installation, createdAt, clock);
      refresh := refresh[jti := Kept(session, until)];
      sessions := sessions[(user, sid) := Kept(session, until)];
      var listed := Smembers(user);
      index := index[user := Kept(listed + {sid}, until)];
    }

    /** The end of `verifyOtp`, for the user the code belongs to. */
    method Login(user: Id, installation: string, sid: Id, jti: Id) returns (reply: Reply)
      requires Valid() && jti !in signed && UnusedSid(State(), sid)
      modifies this`refresh, this`sessions, this`index, this`signed
      ensures Valid() && State() == Next(old(State()), Call.Login(user, installation, sid, jti))
      ensures reply == LoginTx(old(State()), user, installation, sid, jti).1
    {
      NextKeeps(State(), Call.Login(user, installation, sid, jti));
      hide Ok;
      if user !in users || users[user].deleted { return Unauthorized; }
      if users[user].blocked { return Reply.Forbidden; }
      var token := IssueTokens(user, installation, sid, clock, jti);
      return Issued(token);
    }

    method Refresh(token: Token, jti: Id) returns (reply: Reply)
      requires Valid() && jti !in signed
      modifies this`refresh, this`sessions, this`index, this`signed
      ensures Valid() && State() == Next(old(State()), Call.Refresh(token, jti))
      ensures reply == RefreshTx(old(State()), token, jti).1
    {
      NextKeeps(State(), Call.Refresh(token, jti));
      hide Ok;
      if token.jti !in signed || signed[token.jti] != token || token.expiresAt <= clock { return Unauthorized; }
      var stored :=
        if token.jti in refresh && refresh[token.jti].expiresAt > clock then Some(refresh[token.jti].value) else None;
      refresh := refresh - {token.jti};
      if stored.None? || stored.value.userId != token.sub {
        RevokeSession(token.sub, token.sid);
        return Unauthorized;
      }
      if token.sub !in users || token.version != users[token.sub].version || users[token.sub].deleted {
        return Unauthorized;
      }
      if users[token.sub].blocked { return Reply.Forbidden; }
      var next := IssueTokens(token.sub, stored.value.installation, stored.value.sessionId, stored.value.createdAt,
          jti);
      return Issued(next);
    }

    method Logout(token: Token)
      requires Valid()
      modifies this`refresh, this`sessions, this`index
      ensures Valid() && State() == Next(old(State()), Call.Logout(token))
    {
      NextKeeps(State(), Call.Logout(token));
      hide Ok;
      if token.jti !in signed || signed[token.jti] != token || token.expiresAt <= clock { return; }
      var session :=
        if token.jti in refresh && refresh[token.jti].expiresAt > clock then Some(refresh[token.jti].value) else None;
      refresh := refresh - {token.jti};
      if session.Some? {
        sessions := sessions - {(session.value.userId, session.value.sessionId)};
        Srem(session.value.userId, session.value.sessionId);
      }
    }

    method RevokeSession(user: Id, sid: Id)
      modifies this`refresh, this`sessions, this`index
      ensures State() == RevokeTx(old(State()), user, sid)
    {
      var session := GetSession(user, sid);
      if session.None? || session.value.userId != user { return; }
      refresh := refresh - {session.value.currentJti};
      sessions := sessions - {(user, sid)};
      Srem(user, sid);
    }

    method RevokeAllSessions(user: Id)
      requires Valid()
      modifies this`users, this`refresh, this`sessions, this`index
      ensures Valid() && State() == Next(old(State()), Call.RevokeAll(user))
      ensures user in users ==> forall jti | LiveKey(State(), jti) :: refresh[jti].value.userId != user
    {
      NextKeeps(State(), Call.RevokeAll(user));
      RevokeAllKeeps(State(), user);
      hide Ok, LiveKey;
      var sids := Smembers(user);
      var refreshKeys := CollectKeys(user, sids);
      if user !in users { return; }
      users := users[user := users[user].(version := users[user].version + 1)];
      refresh := refresh - refreshKeys;
      sessions := sessions - (set sid | sid in sids :: (user, sid));
      index := index - {user};
    }

    /** Lists the standing sessions of a user and takes the others off the index. */
    method ListSessions(user: Id) returns (shown: set<Id>)
      requires Valid()
      modifies this`index
      ensures Valid() && State() == Next(old(State()), Call.ListSessions(user))
      ensures shown == Shown(old(State()), user, IndexOf(old(State()), user))
    {
      NextKeeps(State(), Call.ListSessions(user));
      hide Ok;
      if user !in index || index[user].expiresAt <= clock { return {}; }
      shown := PruneIndex(user);
    }

    /** The loop of the listing: each session without a standing record is taken off as it is met. */
    method PruneIndex(user: Id) returns (shown: set<Id>)
      requires user in index
      modifies this`index
      ensures shown == Shown(old(State()), user, old(index)[user].value)
      ensures index == old(index)[user := Kept(shown, old(index)[user].expiresAt)]
    {
      var left := index[user].value;
      ghost var sids, before := left, State();
      shown := {};
      assert shown + left == sids;
      while left != {}
        invariant left <= sids && shown == Shown(before, user, sids - left) && user in index
        invariant index == before.index[user := Kept(shown + left, before.index[user].expiresAt)]
        decreases left
      {
        var sid :| sid in left;
        var session := GetSession(user, sid);
        PruneOne(before, user, sids, left, sid);
        if session.Some? && session.value.userId == user {
          assert (shown + {sid}) + (left - {sid}) == shown + left;
          shown := shown + {sid};
        } else {
          assert (shown + left) - {sid} == shown + (left - {sid});
          index := index[user := Kept(index[user].value - {sid}, index[user].expiresAt)];
        }
        left := left - {sid};
      }
      assert sids - {} == sids && shown + {} == shown;
    }

    /** The loop over the user's sessions. */
    method CollectKeys(user: Id, sids: set<Id>) returns (keys: set<Id>)
      ensures keys == CurrentJtis(State(), user, sids)
    {
      keys := {};
      var left := sids;
      while left != {}
        invariant left <= sids && keys == CurrentJtis(State(), user, sids - left)
        decreases left
      {
        var sid :| sid in left;
        var session := GetSession(user, sid);
        assert sids - (left - {sid}) == (sids - left) + {sid};
        left := left - {sid};
        if session.Some? && session.value.userId == user {
          keys := keys + {session.value.currentJti};
        }
      }
      assert sids - {} == sids;
    }
  }
}
