/** Sessions: when a token opens one, how one is made, moved to another account and
    ended, and how the ways in behind it are changed and taken away. */
module PortalSessions {
  import opened Wrappers
  import opened PortalTables
  import opened PortalSteps

  const SESSION_IDLE := 7 * 86400
  const SESSION_ABSOLUTE := 30 * 86400
  const RECENT_AUTH := 600

  datatype AuthError =
    | TransactionActive | SignInFailed | AccountUnavailable | Reauthenticate | UsernameUnavailable
    | LastSignInMethod | UnknownMethod | SessionUnavailable | ChallengeExpired | VerificationFailed
    | VerificationRequired | ExistingAccountSignIn | AccountAlreadyLinked | DiscordFailed | ProviderInUse
    | DiscordAlreadyLinked | StorageRefused | PasskeyLimit | PasskeyRegistered | PasskeyFailed

  /** What a request knows about its session. */
  datatype Current = Current(pid: string, aid: int, sid: string, token: string)

  // -------------------------------------------------------------------- reading

  predicate ProfileActive(db: Db, pid: string) {
    pid in db.profiles && !db.profiles[pid].disabled
  }

  /** The account as the identity view shows it: an active binding of an enabled
      profile whose link, if it has one, agrees and is the only active one. */
  predicate InView(db: Db, k: Key) {
    && ProfileActive(db, k.pid) && k in db.bindings && Active(db.bindings[k])
    && match db.bindings[k].legacy
       case None => true
       case Some(l) =>
         && l in db.links && db.links[l].revokedAt.None? && db.links[l].aid == k.aid
         && db.profiles[k.pid].legacy == Some(db.links[l].did)
         && forall m :: m in db.links && db.links[m].aid == k.aid && db.links[m].revokedAt.None? ==> m == l
  }

  /** An account is open to its recorded owner alone. */
  predicate AccountOpen(db: Db, pid: string, aid: int) {
    aid in db.owners && db.owners[aid] == Some(pid) && InView(db, Key(pid, aid))
  }

  /** Under the invariant the view's cross-checks say no more than the binding does. */
  lemma ViewIsBinding(db: Db, k: Key)
    requires Inv(db)
    ensures InView(db, k) <==> ProfileActive(db, k.pid) && k in db.bindings && Active(db.bindings[k])
    ensures db.installed ==> (InView(db, k) <==> AccountOpen(db, k.pid, k.aid))
  {
    assert Mirror(db.links, db.profiles, db.bindings) && UniqueActive(db.bindings);
    assert db.installed ==> OwnersHold(db.bindings, db.owners);
    hide Inv, OwnersHold;
    if ProfileActive(db, k.pid) && k in db.bindings && Active(db.bindings[k]) && db.bindings[k].legacy.Some? {
      var l := db.bindings[k].legacy.value;
      assert Mirrors(db.links, db.profiles, k, db.bindings[k]);
      forall m | m in db.links && db.links[m].aid == k.aid && db.links[m].revokedAt.None? ensures m == l {
        OnlyLink(db, k, m);
      }
    }
    assert db.installed && k in db.bindings && Active(db.bindings[k]) ==>
      k.aid in db.owners && db.owners[k.aid] == Some(k.pid) by {
      assert db.installed ==> OwnersHold(db.bindings, db.owners);
      OwnerOfActive(db, k);
    }
  }

  lemma OwnerOfActive(db: Db, k: Key)
    requires db.installed ==> OwnersHold(db.bindings, db.owners)
    ensures db.installed && k in db.bindings && Active(db.bindings[k]) ==>
              k.aid in db.owners && db.owners[k.aid] == Some(k.pid)
  {
  }

  lemma OnlyLink(db: Db, k: Key, m: int)
    requires Mirror(db.links, db.profiles, db.bindings) && UniqueActive(db.bindings)
    requires k in db.bindings && Active(db.bindings[k]) && m in db.links && db.links[m].aid == k.aid
    requires db.links[m].revokedAt.None?
    ensures db.bindings[k].legacy == Some(m)
  {
    var p :| MirroredBy(db.links, db.bindings, m, p);
    assert Mirrors(db.links, db.profiles, Key(p, k.aid), db.bindings[Key(p, k.aid)]);
  }

  // ------------------------------------------------------------------- sessions

  /** The session opens a request at this moment. */
  predicate Usable(db: Db, s: Session, now: int) {
    && !s.revoked && 0 <= now - s.lastSeen <= SESSION_IDLE && now <= s.expires
    && ProfileActive(db, s.pid) && CredentialActive(db, s.pid, s.credential)
    && (s.aid != 0 ==> AccountOpen(db, s.pid, s.aid) && db.bindings[Key(s.pid, s.aid)].version == s.lv)
  }

  /** What a request that has just been let in knows, and that it is true. */
  predicate SignedIn(db: Db, c: Current, now: int) {
    && c.sid in db.sessions && db.sessions[c.sid].token == c.token && db.sessions[c.sid].pid == c.pid
    && db.sessions[c.sid].aid == c.aid && Usable(db, db.sessions[c.sid], now)
  }

  predicate OpensBy(db: Db, sid: string, token: string, now: int) {
    sid in db.sessions && db.sessions[sid].token == token && Usable(db, db.sessions[sid], now)
  }

  /** Whoever is signed in is not left behind, so may act on the binding. */
  lemma SignedInIsNotStale(db: Db, c: Current, now: int)
    requires SignedIn(db, c, now)
    ensures !Stale(db, c.sid)
  {
  }

  /** Not ended, seen within seven days, not past its end; its profile enabled, and its
      account, if it has one, held at the version the session is good for. */
  predicate Lasts(db: Db, s: Session, now: int) {
    && !s.revoked && 0 <= now - s.lastSeen <= 7 * 86400 && now <= s.expires
    && s.pid in db.profiles && !db.profiles[s.pid].disabled
    && (s.aid != 0 ==>
          var k := Key(s.pid, s.aid);
          k in db.bindings && db.bindings[k].revokedAt.None? && db.bindings[k].version == s.lv)
  }

  /** That is all there is to it: the way in, the owner and the link are then in order. */
  lemma UsableIsLasting(db: Db, i: string, now: int)
    requires Inv(db) && i in db.sessions
    ensures Usable(db, db.sessions[i], now) <==> Lasts(db, db.sessions[i], now)
  {
    var s := db.sessions[i];
    SessionsMeanInstalled(db, i);
    ViewIsBinding(db, Key(s.pid, s.aid));
    assert s.revoked || CredentialActive(db, s.pid, s.credential) by { SessionFacts(db); }
    hide Inv, InView, CredentialActive;
  }

  /** Who is let in, whatever the token: the sessions that last. */
  lemma OpeningIsLasting(db: Db, token: string, now: int)
    requires Inv(db)
    ensures forall i :: OpensBy(db, i, token, now) <==>
                          i in db.sessions && db.sessions[i].token == token && Lasts(db, db.sessions[i], now)
  {
    hide Inv, Usable, Lasts;
    forall i | i in db.sessions
      ensures Usable(db, db.sessions[i], now) <==> Lasts(db, db.sessions[i], now)
    {
      UsableIsLasting(db, i, now);
    }
  }

  method FindSession(sessions: Sessions, token: string) returns (r: Option<string>)
    ensures r.Some? ==> r.value in sessions && sessions[r.value].token == token
    ensures r.None? ==> forall i :: i in sessions ==> sessions[i].token != token
  {
    var todo := sessions.Keys;
    while todo != {}
      invariant todo <= sessions.Keys
      invariant forall i :: i in sessions && i !in todo ==> sessions[i].token != token
    {
      var i :| i in todo;
      if sessions[i].token == token {
        return Some(i);
      }
      todo := todo - {i};
    }
    return None;
  }

  /** The one thing a look at a session writes: when it was last seen. */
  function Touched(db: Db, sid: string, now: int): Db
    requires sid in db.sessions
  {
    if now - db.sessions[sid].lastSeen > 60
    then db.(sessions := db.sessions[sid := db.sessions[sid].(lastSeen := now)]) else db
  }

  lemma TouchedKeeps(a: Db, sid: string, now: int)
    requires Inv(a) && sid in a.sessions
    ensures Inv(Touched(a, sid, now)) && Evolves(a, Touched(a, sid, now)) && StaleStays(a, Touched(a, sid, now))
  {
    if now - a.sessions[sid].lastSeen > 60 {
      TouchIsPut(a, sid, now);
      hide Inv, Evolves;
      PutSessionKeeps(a, sid, a.sessions[sid].(lastSeen := now));
      TouchStale(a, sid, now);
    } else {
      EvolvesItself(a);
    }
  }

  lemma TouchIsPut(a: Db, sid: string, now: int)
    requires Inv(a) && sid in a.sessions && now - a.sessions[sid].lastSeen > 60
    ensures SessionFits(a, sid, a.sessions[sid].(lastSeen := now))
    ensures Touched(a, sid, now) == PutSession(a, sid, a.sessions[sid].(lastSeen := now))
  {
    assert TokensOk(a.sessions, a.drawn) && SessionsBound(a.sessions, a.bindings) && CredentialsHold(a);
    assert References(a);
    assert sid in a.drawn && a.sessions[sid].token in a.drawn;
    assert a.drawn + {sid, a.sessions[sid].token} == a.drawn;
    assert SessionBound(a.bindings, a.sessions[sid]);
    SessionsMeanInstalled(a, sid);
  }

  lemma SessionsMeanInstalled(a: Db, sid: string)
    requires Inv(a) && sid in a.sessions
    ensures a.installed
  {
  }

  lemma TouchedTime(a: Db, sid: string, now: int)
    requires sid in a.sessions
    ensures var s := a.sessions[sid];
            && sid in Touched(a, sid, now).sessions
            && Touched(a, sid, now).sessions[sid] == s.(lastSeen := if now - s.lastSeen > 60 then now else s.lastSeen)
  {
  }

  /** Same profile, same account, same version. */
  predicate SameMark(s: Session, t: Session) {
    t.pid == s.pid && t.aid == s.aid && t.lv == s.lv
  }

  lemma SameMarks(a: Db, b: Db)
    requires b.bindings == a.bindings && forall i :: i in a.sessions ==>
              i in b.sessions && SameMark(a.sessions[i], b.sessions[i])
    ensures StaleStays(a, b)
  {
  }

  lemma TouchMark(sessions: Sessions, sid: string, now: int, i: string)
    requires sid in sessions && i in sessions
    ensures SameMark(sessions[i], sessions[sid := sessions[sid].(lastSeen := now)][i])
  {
  }

  lemma TouchStale(a: Db, sid: string, now: int)
    requires sid in a.sessions
    ensures StaleStays(a, Touched(a, sid, now))
  {
    hide StaleStays, Stale, SameMark;
    if now - a.sessions[sid].lastSeen > 60 {
      forall i | i in a.sessions ensures SameMark(a.sessions[i], Touched(a, sid, now).sessions[i]) {
        TouchMark(a.sessions, sid, now, i);
      }
      SameMarks(a, Touched(a, sid, now));
    } else {
      EvolvesItself(a);
    }
  }

  /** A token opens its session exactly when the session is usable. */
  method OpenSession(conn: Connection, token: string, now: int) returns (r: Option<Current>)
    requires Inv(conn.db)
    modifies conn
    ensures r.Some? ==> OpensBy(old(conn.db), r.value.sid, token, now) && SignedIn(conn.db, r.value, now)
    ensures r.Some? ==> r.value.token == token && conn.db == Touched(old(conn.db), r.value.sid, now)
    ensures old(conn.Idle()) ==> conn.Idle()
    ensures r.None? ==> conn.db == old(conn.db) && forall i :: !OpensBy(conn.db, i, token, now)
    ensures r.Some? ==>
              && r.value.sid in old(conn.db).sessions
              && var s := old(conn.db).sessions[r.value.sid];
              && s.token == token && Lasts(old(conn.db), s, now) && r.value == Current(s.pid, s.aid, r.value.sid, token)
              && conn.db.sessions[r.value.sid] == s.(lastSeen := if now - s.lastSeen > 60 then now else s.lastSeen)
    ensures r.None? ==>
              forall i :: i in conn.db.sessions && conn.db.sessions[i].token == token ==>
                !Lasts(conn.db, conn.db.sessions[i], now)
    ensures Inv(conn.db) && Evolves(old(conn.db), conn.db) && StaleStays(old(conn.db), conn.db)
  {
    EvolvesItself(conn.db);
    OpeningIsLasting(conn.db, token, now);
    hide Inv, Evolves, StaleStays, SignedIn, Usable, Lasts, Touched, OpensBy;
    var found := FindSession(conn.db.sessions, token);
    WhatOpens(conn.db, token, found, now);
    if found.None? {
      return None;
    }
    var sid := found.value;
    var s := conn.db.sessions[sid];
    if !Usable(conn.db, s, now) {
      return None;
    }
    TouchedKeeps(conn.db, sid, now);
    TouchedIsSignedIn(conn.db, sid, now);
    TouchedTime(conn.db, sid, now);
    if now - s.lastSeen > 60 {
      conn.Commit();
    }
    conn.db := Touched(conn.db, sid, now);
    return Some(Current(s.pid, s.aid, sid, token));
  }

  /** A token opens the one session that has it, if that is usable. */
  lemma WhatOpens(a: Db, token: string, found: Option<string>, now: int)
    requires Inv(a)
    requires if found.Some? then found.value in a.sessions && a.sessions[found.value].token == token
             else forall i :: i in a.sessions ==> a.sessions[i].token != token
    ensures forall i :: OpensBy(a, i, token, now) <==> found == Some(i) && Usable(a, a.sessions[i], now)
  {
    assert TokensOk(a.sessions, a.drawn);
    hide Inv, Usable;
  }

  /** Being usable depends on the session and on tables that a look does not write. */
  lemma UsableAfter(a: Db, b: Db, s: Session, t: Session, now: int)
    requires Usable(a, s, now) && b == a.(sessions := b.sessions)
    requires t == s.(lastSeen := t.lastSeen) && s.lastSeen <= t.lastSeen <= now
    ensures Usable(b, t, now)
  {
    assert CredentialActive(b, t.pid, t.credential);
    assert s.aid != 0 ==> InView(b, Key(s.pid, s.aid));
    hide CredentialActive, InView;
  }

  lemma TouchedIsSignedIn(a: Db, sid: string, now: int)
    requires sid in a.sessions && Usable(a, a.sessions[sid], now)
    ensures var s := a.sessions[sid]; SignedIn(Touched(a, sid, now), Current(s.pid, s.aid, sid, s.token), now)
  {
    var b := Touched(a, sid, now);
    var seen := a.sessions[sid].lastSeen;
    assert seen <= now by { SeenBefore(a, a.sessions[sid], now); }
    hide Usable;
    assert b == a.(sessions := b.sessions);
    UsableAfter(a, b, a.sessions[sid], b.sessions[sid], now);
  }

  lemma SeenBefore(a: Db, s: Session, now: int)
    requires Usable(a, s, now)
    ensures s.lastSeen <= now
  {
  }

  /** A fresh proof of identity, at most ten minutes old. */
  predicate Recent(db: Db, pid: string, c: Current, now: int) {
    && c.pid == pid && c.sid in db.sessions
    && var s := db.sessions[c.sid];
    && s.token == c.token && s.pid == pid && !s.revoked && s.expires >= now && 0 <= now - s.authAt <= RECENT_AUTH
    && CredentialActive(db, pid, s.credential) && ProfileActive(db, pid)
  }

  /** A session of the profile that is open, not past its end, and was proved to be its
      owner's within ten minutes. */
  predicate Proved(db: Db, c: Current, now: int) {
    && c.sid in db.sessions
    && var s := db.sessions[c.sid];
    && s.token == c.token && s.pid == c.pid && !s.revoked && now <= s.expires && 0 <= now - s.authAt <= 10 * 60
    && c.pid in db.profiles && !db.profiles[c.pid].disabled
  }

  lemma RecentIsProved(db: Db, c: Current, now: int)
    requires Inv(db)
    ensures Recent(db, c.pid, c, now) <==> Proved(db, c, now)
  {
    SessionFacts(db);
    hide Inv, CredentialActive;
  }

  // --------------------------------------------------------------- passwords

  /** The profile's other open sessions. */
  function OthersOf(sessions: Sessions, pid: string, sid: string): set<string> {
    set i | i in sessions && i != sid && sessions[i].pid == pid && !sessions[i].revoked
  }

  function NextVersion(db: Db, pid: string): int {
    if pid in db.passwords then db.passwords[pid].version + 1 else 1
  }

  function Named(db: Db, pid: string, name: string): Db {
    if pid in db.users then PutName(db, pid, Some(name)) else db
  }

  function PasswordSet(db: Db, c: Current, name: string, hash: string, token: string, now: int): Db
    requires c.sid in db.sessions
  {
    var v := NextVersion(db, c.pid);
    ChangePassword(
      Named(SignOut(db, OthersOf(db.sessions, c.pid, c.sid)), c.pid, name), c.pid, Password(hash, v, false), c.sid,
      db.sessions[c.sid].(token := token, credential := PasswordVersion(v), authAt := now))
  }

  /** One session left, under a token that nobody had before. */
  ghost predicate OnlySession(db: Db, pid: string, sid: string, was: string, token: string) {
    && (forall i :: i in db.sessions && db.sessions[i].pid == pid ==> (!db.sessions[i].revoked <==> i == sid))
    && sid in db.sessions && db.sessions[sid].token == token && !TokenLives(db, was)
  }

  lemma NamedKeeps(a: Db, pid: string, name: string)
    requires Inv(a) && a.installed && (pid in a.users ==> NameFree(a.users, pid, Some(name)))
    ensures var b := Named(a, pid, name); Inv(b) && Evolves(a, b) && StaleStays(a, b)
  {
    hide Inv, Evolves, StaleStays;
    if pid in a.users {
      PutNameKeeps(a, pid, Some(name));
    } else {
      EvolvesItself(a);
    }
  }

  lemma StaleChain(a: Db, b: Db, c: Db)
    requires StaleStays(a, b) && StaleStays(b, c)
    ensures StaleStays(a, c)
  {
  }

  /** Three steps in a row. */
  lemma ChainThree(a: Db, b: Db, c: Db, d: Db)
    requires Inv(a) && Inv(b) && Inv(c)
    requires Evolves(a, b) && Evolves(b, c) && Evolves(c, d)
    ensures Evolves(a, d)
  {
    hide Inv, Evolves;
    EvolvesChain(a, b, c);
    EvolvesChain(a, c, d);
  }

  lemma RecentFacts(a: Db, c: Current, now: int)
    requires Inv(a) && Recent(a, c.pid, c, now)
    ensures a.installed && c.pid in a.profiles && SessionBound(a.bindings, a.sessions[c.sid])
    ensures a.sessions[c.sid].token in a.drawn && c.sid in a.drawn
  {
    SessionsMeanInstalled(a, c.sid);
    assert SessionsBound(a.sessions, a.bindings) && TokensOk(a.sessions, a.drawn);
  }

  lemma RecentIsOwn(a: Db, c: Current, now: int)
    requires Recent(a, c.pid, c, now)
    ensures c.sid in a.sessions && a.sessions[c.sid].pid == c.pid && a.sessions[c.sid].token == c.token
    ensures !a.sessions[c.sid].revoked
  {
  }

  lemma PasswordSetFits(a: Db, c: Current, name: string, hash: string, token: string, now: int)
    requires Inv(a) && Recent(a, c.pid, c, now) && token !in a.drawn
    ensures var m := Named(SignOut(a, OthersOf(a.sessions, c.pid, c.sid)), c.pid, name);
            var v := NextVersion(a, c.pid);
            ChangeFits(m, c.pid, Password(hash, v, false), c.sid,
                       a.sessions[c.sid].(token := token, credential := PasswordVersion(v), authAt := now))
  {
    RecentFacts(a, c, now);
    hide Inv;
  }

  lemma PasswordSetKeeps(a: Db, c: Current, name: string, hash: string, token: string, now: int)
    requires Inv(a) && Recent(a, c.pid, c, now) && token !in a.drawn
    requires c.pid in a.users ==> NameFree(a.users, c.pid, Some(name))
    ensures var b := PasswordSet(a, c, name, hash, token, now); Inv(b) && Evolves(a, b) && StaleStays(a, b)
  {
    RecentFacts(a, c, now);
    var v := NextVersion(a, c.pid);
    var m := SignOut(a, OthersOf(a.sessions, c.pid, c.sid));
    var n := Named(m, c.pid, name);
    var s := a.sessions[c.sid].(token := token, credential := PasswordVersion(v), authAt := now);
    PasswordSetFits(a, c, name, hash, token, now);
    SignOutKeeps(a, OthersOf(a.sessions, c.pid, c.sid));
    hide Inv, Evolves, StaleStays, StaleStaysBut, ChangeFits, Recent, OthersOf;
    NamedKeeps(m, c.pid, name);
    ChangePasswordKeeps(n, c.pid, Password(hash, v, false), c.sid, s);
    ChainThree(a, m, n, PasswordSet(a, c, name, hash, token, now));
    PasswordSetStale(a, c, name, hash, token, now);
  }

  lemma PasswordSetStale(a: Db, c: Current, name: string, hash: string, token: string, now: int)
    requires c.sid in a.sessions
    ensures StaleStays(a, PasswordSet(a, c, name, hash, token, now))
  {
    hide StaleStays;
    var b := PasswordSet(a, c, name, hash, token, now);
    assert b.bindings == a.bindings;
    forall i | i in a.sessions ensures i in b.sessions && SameMark(a.sessions[i], b.sessions[i]) {
    }
    hide PasswordSet;
    SameMarks(a, b);
  }

  lemma OneLeft(a: Db, pid: string, sid: string, s: Session)
    requires sid in a.sessions && a.sessions[sid].pid == s.pid == pid && !s.revoked && s.token !in a.drawn
    requires TokensOk(a.sessions, a.drawn)
    ensures var after := RevokedIn(a.sessions, OthersOf(a.sessions, pid, sid))[sid := s];
            && (forall i :: i in after && after[i].pid == pid ==> (!after[i].revoked <==> i == sid))
            && (forall i :: i in after && !after[i].revoked ==> after[i].token != a.sessions[sid].token)
  {
  }

  lemma PasswordSetSessions(a: Db, c: Current, name: string, hash: string, token: string, now: int)
    requires c.sid in a.sessions
    ensures var v := NextVersion(a, c.pid);
            var s := a.sessions[c.sid].(token := token, credential := PasswordVersion(v), authAt := now);
            PasswordSet(a, c, name, hash, token, now).sessions ==
            RevokedIn(a.sessions, OthersOf(a.sessions, c.pid, c.sid))[c.sid := s]
  {
    hide RevokedIn, OthersOf, NextVersion;
  }

  lemma PasswordSetLeaves(a: Db, c: Current, name: string, hash: string, token: string, now: int)
    requires Inv(a) && Recent(a, c.pid, c, now) && token !in a.drawn
    ensures c.sid in a.sessions
    ensures OnlySession(PasswordSet(a, c, name, hash, token, now), c.pid, c.sid, c.token, token)
  {
    hide Inv, Recent, RevokedIn, OthersOf, PasswordSet, TokensOk, NextVersion, SessionsBound, CredentialsHold,
         References, NotYet;
    SessionFacts(a);
    RecentIsOwn(a, c, now);
    PasswordSetSessions(a, c, name, hash, token, now);
    var s := a.sessions[c.sid].(token := token, credential := PasswordVersion(NextVersion(a, c.pid)), authAt := now);
    OneLeft(a, c.pid, c.sid, s);
  }

  /** What a change of password changes: the password, under the next version; the name,
      for whoever has one; this session, under a new token and newly proved; and every
      other session of the profile, which ends. */
  ghost predicate PasswordChanged(a: Db, b: Db, c: Current, name: string, hash: string, token: string, now: int) {
    var v := if c.pid in a.passwords then a.passwords[c.pid].version + 1 else 1;
    && b == a.(passwords := b.passwords, users := b.users, sessions := b.sessions, drawn := a.drawn + {token})
    && b.passwords == a.passwords[c.pid := Password(hash, v, false)]
    && b.users == (if c.pid in a.users then a.users[c.pid := Some(name)] else a.users)
    && b.sessions.Keys == a.sessions.Keys && c.sid in a.sessions
    && b.sessions[c.sid] == a.sessions[c.sid].(token := token, credential := PasswordVersion(v), authAt := now)
    && forall i :: i in a.sessions && i != c.sid ==>
         b.sessions[i] == if a.sessions[i].pid == c.pid then a.sessions[i].(revoked := true) else a.sessions[i]
  }

  lemma OthersEnd(sessions: Sessions, pid: string, sid: string)
    ensures var after := RevokedIn(sessions, OthersOf(sessions, pid, sid));
            && after.Keys == sessions.Keys
            && forall i :: i in sessions && i != sid ==>
                 after[i] == if sessions[i].pid == pid then sessions[i].(revoked := true) else sessions[i]
  {
    forall i | i in sessions && i != sid
      ensures i in OthersOf(sessions, pid, sid) <==> sessions[i].pid == pid && !sessions[i].revoked
    {
    }
    hide OthersOf;
  }

  lemma PasswordSetTables(a: Db, c: Current, name: string, hash: string, token: string, now: int)
    requires c.sid in a.sessions
    ensures var b := PasswordSet(a, c, name, hash, token, now);
            && b == a.(passwords := b.passwords, users := b.users, sessions := b.sessions, drawn := a.drawn + {token})
            && b.passwords == a.passwords[c.pid := Password(hash, NextVersion(a, c.pid), false)]
            && b.users == (if c.pid in a.users then a.users[c.pid := Some(name)] else a.users)
  {
    hide OthersOf, RevokedIn, NextVersion;
  }

  lemma PasswordSetChanges(a: Db, c: Current, name: string, hash: string, token: string, now: int)
    requires c.sid in a.sessions
    ensures PasswordChanged(a, PasswordSet(a, c, name, hash, token, now), c, name, hash, token, now)
  {
    hide PasswordSet, OthersOf, RevokedIn;
    PasswordSetTables(a, c, name, hash, token, now);
    PasswordSetSessions(a, c, name, hash, token, now);
    OthersEnd(a.sessions, c.pid, c.sid);
  }

  /** Finds who else, if anyone, has a name. */
  method NameIsFree(users: map<string, Option<string>>, pid: string, name: string) returns (free: bool)
    ensures free <==> NameFree(users, pid, Some(name))
  {
    free := forall p :: p in users && p != pid ==> users[p] != Some(name);
  }

  /** A new password under a recent proof of identity: every other session ends, this
      one goes on under a new token. */
  method SetPassword(conn: Connection, c: Current, name: string, hash: string, token: string, now: int)
    returns (r: Result<string, AuthError>)
    requires Inv(conn.db) && token !in conn.db.drawn
    modifies conn
    ensures old(conn.Idle()) ==> conn.Idle()
    ensures r.Ok? <==> && old(conn.Idle()) && Recent(old(conn.db), c.pid, c, now)
                       && (c.pid in old(conn.db.users) ==> NameFree(old(conn.db.users), c.pid, Some(name)))
    ensures r.Err? ==> conn.db == old(conn.db)
    ensures r.Ok? ==> r.value == token && conn.db == PasswordSet(old(conn.db), c, name, hash, token, now)
    ensures r.Ok? <==> && old(conn.Idle()) && Proved(old(conn.db), c, now)
                       && (c.pid in old(conn.db).users ==>
                             forall p :: p in old(conn.db).users && p != c.pid ==> old(conn.db).users[p] != Some(name))
    ensures r.Ok? ==> PasswordChanged(old(conn.db), conn.db, c, name, hash, token, now)
    ensures r.Ok? ==> OnlySession(conn.db, c.pid, c.sid, c.token, token)
    ensures Inv(conn.db) && Evolves(old(conn.db), conn.db) && StaleStays(old(conn.db), conn.db)
  {
    EvolvesItself(conn.db);
    RecentIsProved(conn.db, c, now);
    hide Inv, Evolves, StaleStays, OnlySession, Proved, PasswordChanged;
    var ok := conn.Begin();
    if !ok {
      return Err(TransactionActive);
    }
    if !Recent(conn.db, c.pid, c, now) {
      conn.Rollback();
      return Err(Reauthenticate);
    }
    var free := NameIsFree(conn.db.users, c.pid, name);
    if c.pid in conn.db.users && !free {
      conn.Rollback();
      return Err(UsernameUnavailable);
    }
    PasswordSetKeeps(conn.db, c, name, hash, token, now);
    PasswordSetLeaves(conn.db, c, name, hash, token, now);
    PasswordSetChanges(conn.db, c, name, hash, token, now);
    hide NameFree, Recent, ChangePassword, SignOut, Named, OthersOf, NextVersion;
    var version, s := NextVersion(conn.db, c.pid), conn.db.sessions[c.sid];
    conn.db := SignOut(conn.db, OthersOf(conn.db.sessions, c.pid, c.sid));
    conn.db := Named(conn.db, c.pid, name);
    conn.db := ChangePassword(conn.db, c.pid, Password(hash, version, false), c.sid,
                              s.(token := token, credential := PasswordVersion(version), authAt := now));
    conn.Commit();
    return Ok(token);
  }

  /** A new name, for whoever has sign-in data at all, if nobody else has it. */
  method SetUsername(conn: Connection, c: Current, name: string, now: int) returns (r: Result<(), AuthError>)
    requires Inv(conn.db)
    modifies conn
    ensures old(conn.Idle()) ==> conn.Idle()
    ensures r.Ok? <==> && old(conn.Idle()) && Recent(old(conn.db), c.pid, c, now)
                       && (c.pid in old(conn.db.users) ==> NameFree(old(conn.db.users), c.pid, Some(name)))
    ensures conn.db == if r.Ok? then Named(old(conn.db), c.pid, name) else old(conn.db)
    ensures r.Ok? <==> && old(conn.Idle()) && Proved(old(conn.db), c, now)
                       && (c.pid in old(conn.db).users ==>
                             forall p :: p in old(conn.db).users && p != c.pid ==> old(conn.db).users[p] != Some(name))
    ensures conn.db == old(conn.db).(users := if r.Ok? && c.pid in old(conn.db).users
                                              then old(conn.db).users[c.pid := Some(name)] else old(conn.db).users)
    ensures Inv(conn.db) && Evolves(old(conn.db), conn.db) && StaleStays(old(conn.db), conn.db)
  {
    EvolvesItself(conn.db);
    RecentIsProved(conn.db, c, now);
    hide Inv, Evolves, StaleStays, Proved;
    var ok := conn.Begin();
    if !ok {
      return Err(TransactionActive);
    }
    if !Recent(conn.db, c.pid, c, now) {
      conn.Rollback();
      return Err(Reauthenticate);
    }
    RecentFacts(conn.db, c, now);
    var free := NameIsFree(conn.db.users, c.pid, name);
    if c.pid in conn.db.users && !free {
      conn.Rollback();
      return Err(UsernameUnavailable);
    }
    NamedKeeps(conn.db, c.pid, name);
    hide NameFree, Recent;
    conn.db := Named(conn.db, c.pid, name);
    conn.Commit();
    return Ok(());
  }

  // ---------------------------------------------------------- removing a way in

  /** A way in as the settings page names it. */
  datatype Way = PasswordWay | PasskeyWay(id: string) | DiscordWay | OtherWay

  predicate HasPassword(db: Db, pid: string) {
    pid in db.passwords && !db.passwords[pid].revoked
  }

  predicate HasDiscord(db: Db, pid: string) {
    exists d :: d in db.providers && db.providers[d] == Provider(pid, false)
  }

  /** How many ways in a profile has. */
  function MethodCount(db: Db, pid: string): nat {
    (if HasPassword(db, pid) then 1 else 0) + |ActiveKeys(db.passkeys, pid)| + (if HasDiscord(db, pid) then 1 else 0)
  }

  /** The way named is one the profile has. */
  predicate HasWay(db: Db, pid: string, way: Way) {
    match way
    case PasswordWay => HasPassword(db, pid)
    case PasskeyWay(id) => id in ActiveKeys(db.passkeys, pid)
    case DiscordWay => HasDiscord(db, pid)
    case OtherWay => false
  }

  /** Sessions opened by it. */
  function SessionsBy(sessions: Sessions, pid: string, way: Way): set<string> {
    set i | i in sessions && sessions[i].pid == pid && !sessions[i].revoked
            && match way
               case PasswordWay => sessions[i].credential.PasswordVersion?
               case PasskeyWay(id) => sessions[i].credential == PasskeyId(id)
               case DiscordWay => sessions[i].credential.DiscordSubject?
               case OtherWay => false
  }

  /** The provider to drop is passed in: a profile has one at most. */
  function WayRemoved(db: Db, pid: string, way: Way, did: string): Db
    requires HasWay(db, pid, way) && (way.DiscordWay? ==> did in db.providers)
  {
    match way
    case PasswordWay => DropPassword(SignOut(db, SessionsBy(db.sessions, pid, way)), pid)
    case PasskeyWay(id) => DropPasskey(SignOut(db, SessionsBy(db.sessions, pid, way)), id)
    case DiscordWay => DropProvider(SignOut(RaiseBoth(db, pid), SessionsBy(db.sessions, pid, way)), did)
  }

  lemma OtherWayLeft(a: Db, pid: string, b: Db)
    requires MethodCount(a, pid) > 1
    requires || (b == a.(passwords := b.passwords))
             || (b == a.(providers := b.providers))
    ensures HasMethod(b, pid)
  {
    if ActiveKeys(a.passkeys, pid) == {} {
      assert HasPassword(a, pid) && HasDiscord(a, pid);
      var d :| d in a.providers && a.providers[d] == Provider(pid, false);
      assert b.providers == a.providers ==> b.providers[d] == Provider(pid, false);
    }
  }

  lemma OtherKeyLeft(a: Db, pid: string, id: string)
    requires MethodCount(a, pid) > 1 && id in ActiveKeys(a.passkeys, pid)
    ensures HasMethod(DropPasskey(a, id), pid)
  {
    var b := DropPasskey(a, id);
    assert ActiveKeys(b.passkeys, pid) == ActiveKeys(a.passkeys, pid) - {id};
    if HasDiscord(a, pid) {
      var d :| d in a.providers && a.providers[d] == Provider(pid, false);
      assert b.providers[d] == Provider(pid, false);
    } else if !HasPassword(a, pid) {
      assert |ActiveKeys(b.passkeys, pid)| > 0;
    }
  }

  lemma NobodyByThen(a: Db, pid: string, way: Way)
    requires CredentialsHold(a) && ProvidersOk(a.providers, a.profiles)
    ensures var m := SignOut(a, SessionsBy(a.sessions, pid, way));
            && (way.PasswordWay? ==> NobodyByPassword(m.sessions, pid))
            && (way.PasskeyWay? ==> NobodyBy(m.sessions, pid, PasskeyId(way.id)))
            && (way.DiscordWay? ==> forall d :: NobodyBy(m.sessions, pid, DiscordSubject(d)))
  {
  }

  lemma RemovedPasswordKeeps(a: Db, pid: string, did: string)
    requires Inv(a) && a.installed && HasPassword(a, pid) && MethodCount(a, pid) > 1
    ensures var b := WayRemoved(a, pid, PasswordWay, did); Inv(b) && Evolves(a, b) && StaleStays(a, b)
  {
    var m := SignOut(a, SessionsBy(a.sessions, pid, PasswordWay));
    assert CredentialsHold(a) && ProvidersOk(a.providers, a.profiles);
    NobodyByThen(a, pid, PasswordWay);
    SignOutKeeps(a, SessionsBy(a.sessions, pid, PasswordWay));
    hide Inv, Evolves, StaleStays, HasMethod, CredentialsHold, ProvidersOk, RevokedIn, SessionsBy, NobodyByPassword,
          MethodCount;
    SameCount(a, m, pid);
    OtherWayLeft(m, pid, DropPassword(m, pid));
    DropPasswordKeeps(m, pid);
    EvolvesChain(a, m, DropPassword(m, pid));
    StaleChain(a, m, DropPassword(m, pid));
  }

  lemma SameCount(a: Db, b: Db, pid: string)
    requires b.passwords == a.passwords && b.passkeys == a.passkeys && b.providers == a.providers
    ensures MethodCount(b, pid) == MethodCount(a, pid)
  {
  }

  lemma RemovedPasskeyKeeps(a: Db, pid: string, id: string, did: string)
    requires Inv(a) && a.installed && id in ActiveKeys(a.passkeys, pid) && MethodCount(a, pid) > 1
    ensures var b := WayRemoved(a, pid, PasskeyWay(id), did); Inv(b) && Evolves(a, b) && StaleStays(a, b)
  {
    var m := SignOut(a, SessionsBy(a.sessions, pid, PasskeyWay(id)));
    assert CredentialsHold(a) && ProvidersOk(a.providers, a.profiles);
    NobodyByThen(a, pid, PasskeyWay(id));
    SignOutKeeps(a, SessionsBy(a.sessions, pid, PasskeyWay(id)));
    hide Inv, Evolves, StaleStays, HasMethod, CredentialsHold, ProvidersOk, RevokedIn, SessionsBy, NobodyBy,
          MethodCount;
    SameCount(a, m, pid);
    OtherKeyLeft(m, pid, id);
    DropPasskeyKeeps(m, id);
    EvolvesChain(a, m, DropPasskey(m, id));
    StaleChain(a, m, DropPasskey(m, id));
  }

  lemma RemovedDiscordKeeps(a: Db, pid: string, did: string)
    requires Inv(a) && a.installed && did in a.providers && a.providers[did] == Provider(pid, false)
    requires MethodCount(a, pid) > 1
    requires HasDiscord(a, pid)
    ensures var b := WayRemoved(a, pid, DiscordWay, did); Inv(b) && Evolves(a, b) && StaleStays(a, b)
  {
    var r := RaiseBoth(a, pid);
    var m := SignOut(r, SessionsBy(a.sessions, pid, DiscordWay));
    RaiseBothKeeps(a, pid);
    RaisedSameBy(a, pid);
    SignOutKeeps(r, SessionsBy(r.sessions, pid, DiscordWay));
    assert CredentialsHold(r) && ProvidersOk(r.providers, r.profiles);
    NobodyByThen(r, pid, DiscordWay);
    hide Inv, Evolves, StaleStays, HasMethod, CredentialsHold, ProvidersOk, RevokedIn, SessionsBy, NobodyBy,
          MethodCount;
    SameCount(a, m, pid);
    OtherWayLeft(m, pid, DropProvider(m, did));
    DropProviderKeeps(m, did);
    ChainThree(a, r, m, DropProvider(m, did));
    StaleChain(a, r, m);
    StaleChain(a, m, DropProvider(m, did));
  }

  lemma RaisedSameBy(a: Db, pid: string)
    ensures SessionsBy(RaiseBoth(a, pid).sessions, pid, DiscordWay) == SessionsBy(a.sessions, pid, DiscordWay)
  {
  }

  method FindDiscord(providers: Providers, pid: string) returns (r: Option<string>)
    ensures r.Some? ==> r.value in providers && providers[r.value] == Provider(pid, false)
    ensures r.None? ==> forall d :: d in providers ==> providers[d] != Provider(pid, false)
  {
    var todo := providers.Keys;
    while todo != {}
      invariant todo <= providers.Keys
      invariant forall d :: d in providers && d !in todo ==> providers[d] != Provider(pid, false)
    {
      var d :| d in todo;
      if providers[d] == Provider(pid, false) {
        return Some(d);
      }
      todo := todo - {d};
    }
    return None;
  }

  /** The effect of taking a way in away, whichever it is. */
  ghost predicate WayGone(a: Db, b: Db, pid: string, way: Way) {
    exists did :: HasWay(a, pid, way)
                  && (way.DiscordWay? ==> did in a.providers && a.providers[did] == Provider(pid, false))
                  && b == WayRemoved(a, pid, way, did)
  }

  lemma WayRemovedKeeps(a: Db, pid: string, way: Way, did: string)
    requires Inv(a) && a.installed && HasWay(a, pid, way) && MethodCount(a, pid) > 1
    requires way.DiscordWay? ==> did in a.providers && a.providers[did] == Provider(pid, false)
    ensures var b := WayRemoved(a, pid, way, did);
            Inv(b) && Evolves(a, b) && StaleStays(a, b) && WayGone(a, b, pid, way)
  {
    hide Inv, Evolves, StaleStays, MethodCount, WayRemoved;
    match way
    case PasswordWay => RemovedPasswordKeeps(a, pid, did);
    case PasskeyWay(id) => RemovedPasskeyKeeps(a, pid, id, did);
    case DiscordWay => RemovedDiscordKeeps(a, pid, did);
  }

  /** Removing Discord raises bindings and sessions together, so that of the sessions
      that survive it exactly the current ones stay current. */
  lemma DiscordRemovalKeepsCurrent(a: Db, pid: string, did: string, i: string)
    requires Inv(a) && HasDiscord(a, pid) && did in a.providers && i in a.sessions && a.sessions[i].aid != 0
    requires !(a.sessions[i].pid == pid && a.sessions[i].credential.DiscordSubject?)
    ensures var b := WayRemoved(a, pid, DiscordWay, did);
            i in b.sessions && (IsCurrent(b.bindings, b.sessions[i]) <==> IsCurrent(a.bindings, a.sessions[i]))
  {
    assert SessionsBound(a.sessions, a.bindings);
    hide Inv, SessionsBound, IsCurrent, RaiseBoth, HasDiscord, WayRemoved, SessionsBy;
    assert i !in SessionsBy(a.sessions, pid, DiscordWay) by { NotBy(a.sessions, pid, i); }
    RaiseBothCurrent(a, pid, i);
    RemovedDiscordSession(a, pid, did, i);
  }

  lemma NotBy(sessions: Sessions, pid: string, i: string)
    requires i in sessions && !(sessions[i].pid == pid && sessions[i].credential.DiscordSubject?)
    ensures i !in SessionsBy(sessions, pid, DiscordWay)
  {
  }

  lemma RemovedDiscordSession(a: Db, pid: string, did: string, i: string)
    requires HasDiscord(a, pid) && did in a.providers && i in a.sessions
    requires i !in SessionsBy(a.sessions, pid, DiscordWay)
    ensures var b := WayRemoved(a, pid, DiscordWay, did);
            && b.bindings == RaiseBoth(a, pid).bindings && i in b.sessions && i in RaiseBoth(a, pid).sessions
            && b.sessions[i] == RaiseBoth(a, pid).sessions[i]
  {
    hide SessionsBy, IsCurrent, HasDiscord;
  }

  /** The profile can sign in this way. */
  ghost predicate Offers(db: Db, pid: string, way: Way) {
    match way
    case PasswordWay => pid in db.passwords && !db.passwords[pid].revoked
    case PasskeyWay(id) => id in db.passkeys && db.passkeys[id].pid == pid && !db.passkeys[id].revoked
    case DiscordWay => exists d :: d in db.providers && db.providers[d].pid == pid && !db.providers[d].revoked
    case OtherWay => false
  }

  lemma HasIsOffered(db: Db, pid: string, way: Way)
    ensures HasWay(db, pid, way) <==> Offers(db, pid, way)
  {
    if way.DiscordWay? && Offers(db, pid, way) {
      var d :| d in db.providers && db.providers[d].pid == pid && !db.providers[d].revoked;
      assert db.providers[d] == Provider(pid, false);
    }
  }

  /** Two ways in are counted when there is a second one. */
  lemma SeveralWays(db: Db, pid: string, way: Way)
    requires HasWay(db, pid, way)
    ensures MethodCount(db, pid) > 1 <==> exists other :: other != way && HasWay(db, pid, other)
  {
    var keys := ActiveKeys(db.passkeys, pid);
    if other :| other != way && HasWay(db, pid, other) {
      if way.PasskeyWay? && other.PasskeyWay? {
        assert keys >= {way.id, other.id};
        Smaller({way.id, other.id}, keys);
      } else if way.PasskeyWay? {
        Smaller({way.id}, keys);
      } else if other.PasskeyWay? {
        Smaller({other.id}, keys);
      }
    }
    if MethodCount(db, pid) > 1 {
      if HasPassword(db, pid) && way != PasswordWay {
        assert HasWay(db, pid, PasswordWay);
      } else if HasDiscord(db, pid) && way != DiscordWay {
        assert HasWay(db, pid, DiscordWay);
      } else {
        SecondKey(keys, way);
        var id :| id in keys && PasskeyWay(id) != way;
        assert HasWay(db, pid, PasskeyWay(id));
      }
    }
  }

  lemma SecondKey(keys: set<string>, way: Way)
    requires if way.PasskeyWay? then |keys| > 1 else keys != {}
    ensures exists id :: id in keys && PasskeyWay(id) != way
  {
    var rest := if way.PasskeyWay? then keys - {way.id} else keys;
    assert rest != {} by {
      if way.PasskeyWay? && rest == {} {
        assert keys <= {way.id};
        Smaller(keys, {way.id});
      }
    }
    var id :| id in rest;
    assert id in keys && PasskeyWay(id) != way;
  }

  /** What goes with a way in: that way alone, of this profile alone, and the sessions
      that came by it. */
  ghost predicate WayLost(a: Db, b: Db, pid: string, way: Way) {
    && (forall p, w :: Offers(b, p, w) <==> Offers(a, p, w) && !(p == pid && w == way))
    && b.sessions.Keys == a.sessions.Keys
    && (forall i :: i in a.sessions ==>
          var s := a.sessions[i];
          && b.sessions[i].token == s.token
          && (b.sessions[i].revoked <==>
                || s.revoked
                || (s.pid == pid
                    && match way
                       case PasswordWay => s.credential.PasswordVersion?
                       case PasskeyWay(id) => s.credential == PasskeyId(id)
                       case DiscordWay => s.credential.DiscordSubject?
                       case OtherWay => false)))
  }

  /** With Discord the profile's bindings that are held go up a version, and with them
      every session that was current; otherwise versions stay. */
  ghost predicate VersionsAfter(a: Db, b: Db, pid: string, way: Way) {
    && b.bindings.Keys == a.bindings.Keys && b.sessions.Keys == a.sessions.Keys
    && (forall k :: k in a.bindings ==>
          b.bindings[k] ==
          if way.DiscordWay? && k.pid == pid && a.bindings[k].revokedAt.None?
          then a.bindings[k].(version := a.bindings[k].version + 1) else a.bindings[k])
    && (forall i :: i in a.sessions ==>
          var s := a.sessions[i];
          && b.sessions[i].aid == s.aid
          && b.sessions[i].lv == if way.DiscordWay? && s.pid == pid && OnCurrent(a, s) then s.lv + 1 else s.lv)
  }

  /** The session is open and good for the version its account has now. */
  predicate OnCurrent(db: Db, s: Session) {
    && !s.revoked && Key(s.pid, s.aid) in db.bindings && db.bindings[Key(s.pid, s.aid)].revokedAt.None?
    && db.bindings[Key(s.pid, s.aid)].version == s.lv
  }

  lemma RaisedAre(a: Db, pid: string)
    ensures VersionsAfter(a, RaiseBoth(a, pid), pid, DiscordWay)
  {
  }

  lemma EndingKeepsVersions(a: Db, b: Db, who: set<string>, pid: string, way: Way)
    requires VersionsAfter(a, b, pid, way)
    ensures VersionsAfter(a, SignOut(b, who), pid, way)
  {
    hide OnCurrent;
  }

  lemma RemovedVersions(a: Db, pid: string, way: Way, did: string)
    requires HasWay(a, pid, way) && (way.DiscordWay? ==> did in a.providers)
    ensures VersionsAfter(a, WayRemoved(a, pid, way, did), pid, way)
  {
    hide HasPassword, HasDiscord, ActiveKeys, SessionsBy, SignOut, RaiseBoth;
    var m := if way.DiscordWay? then RaiseBoth(a, pid) else a;
    RaisedAre(a, pid);
    assert VersionsAfter(a, m, pid, way);
    EndingKeepsVersions(a, m, SessionsBy(a.sessions, pid, way), pid, way);
    RemovedLeaves(a, pid, way, did);
    hide OnCurrent, WayRemoved;
  }

  lemma RemovedLeaves(a: Db, pid: string, way: Way, did: string)
    requires HasWay(a, pid, way) && (way.DiscordWay? ==> did in a.providers)
    ensures var b := WayRemoved(a, pid, way, did);
            var m := SignOut(if way.DiscordWay? then RaiseBoth(a, pid) else a, SessionsBy(a.sessions, pid, way));
            b.bindings == m.bindings && b.sessions == m.sessions
  {
    hide HasPassword, HasDiscord, ActiveKeys, SessionsBy, SignOut, RaiseBoth;
  }

  lemma RemovedWays(a: Db, pid: string, way: Way, did: string)
    requires ProvidersOk(a.providers, a.profiles) && HasWay(a, pid, way)
    requires way.DiscordWay? ==> did in a.providers && a.providers[did] == Provider(pid, false)
    ensures var b := WayRemoved(a, pid, way, did);
            forall p, w :: Offers(b, p, w) <==> Offers(a, p, w) && !(p == pid && w == way)
  {
    var b := WayRemoved(a, pid, way, did);
    hide SignOut, RaiseBoth, SessionsBy;
    RemovedTables(a, pid, way, did);
    forall p, w ensures Offers(b, p, w) <==> Offers(a, p, w) && !(p == pid && w == way) {
      if way.DiscordWay? && w.DiscordWay? && p != pid && Offers(a, p, w) {
        var d :| d in a.providers && a.providers[d].pid == p && !a.providers[d].revoked;
        assert d in b.providers && b.providers[d] == a.providers[d];
      }
    }
  }

  lemma RemovedTables(a: Db, pid: string, way: Way, did: string)
    requires HasWay(a, pid, way) && (way.DiscordWay? ==> did in a.providers)
    ensures var b := WayRemoved(a, pid, way, did);
            && b.passwords == (if way.PasswordWay? then DropPassword(a, pid).passwords else a.passwords)
            && b.passkeys == (if way.PasskeyWay? then DropPasskey(a, way.id).passkeys else a.passkeys)
            && b.providers == (if way.DiscordWay? then DropProvider(a, did).providers else a.providers)
  {
    hide SessionsBy, IsCurrent;
  }

  lemma RemovedSessions(a: Db, pid: string, way: Way, did: string)
    requires HasWay(a, pid, way) && (way.DiscordWay? ==> did in a.providers)
    ensures var b := WayRemoved(a, pid, way, did);
            && b.sessions.Keys == a.sessions.Keys
            && forall i :: i in a.sessions ==>
                 && b.sessions[i].token == a.sessions[i].token
                 && (b.sessions[i].revoked <==> a.sessions[i].revoked || i in SessionsBy(a.sessions, pid, way))
  {
    hide SessionsBy, IsCurrent, HasPassword, HasDiscord, ActiveKeys;
  }

  lemma RemovedIsLost(a: Db, pid: string, way: Way, did: string)
    requires ProvidersOk(a.providers, a.profiles) && HasWay(a, pid, way)
    requires way.DiscordWay? ==> did in a.providers && a.providers[did] == Provider(pid, false)
    ensures WayLost(a, WayRemoved(a, pid, way, did), pid, way)
  {
    hide WayRemoved, HasWay, Offers;
    RemovedWays(a, pid, way, did);
    RemovedSessions(a, pid, way, did);
  }

  /** Takes away one of several ways in, and every session that came by it. The last
      one cannot be taken. */
  method RevokeMethod(conn: Connection, c: Current, way: Way, now: int) returns (r: Result<(), AuthError>)
    requires Inv(conn.db)
    modifies conn
    ensures old(conn.Idle()) ==> conn.Idle()
    ensures r.Ok? <==> && old(conn.Idle()) && Recent(old(conn.db), c.pid, c, now)
                       && MethodCount(old(conn.db), c.pid) > 1 && HasWay(old(conn.db), c.pid, way)
    ensures r.Err? ==> conn.db == old(conn.db)
    ensures r.Ok? ==> WayGone(old(conn.db), conn.db, c.pid, way) && HasMethod(conn.db, c.pid)
    ensures r.Ok? <==> && old(conn.Idle()) && Proved(old(conn.db), c, now) && Offers(old(conn.db), c.pid, way)
                       && exists other :: other != way && Offers(old(conn.db), c.pid, other)
    ensures r.Ok? ==>
              WayLost(old(conn.db), conn.db, c.pid, way) && VersionsAfter(old(conn.db), conn.db, c.pid, way)
    ensures Inv(conn.db) && Evolves(old(conn.db), conn.db) && StaleStays(old(conn.db), conn.db)
  {
    EvolvesItself(conn.db);
    RecentIsProved(conn.db, c, now);
    WhenSeveral(conn.db, c.pid, way);
    WayFacts(conn.db);
    hide Inv, Evolves, StaleStays, WayGone, HasMethod, MethodCount, ActiveKeys, Proved, Offers, WayLost, ProvidersOk;
    hide References, CredentialsHold, PasskeysBounded, VersionsAfter;
    var ok := conn.Begin();
    if !ok {
      return Err(TransactionActive);
    }
    if !Recent(conn.db, c.pid, c, now) {
      conn.Rollback();
      return Err(Reauthenticate);
    }
    RecentFacts(conn.db, c, now);
    var discord := FindDiscord(conn.db.providers, c.pid);
    if MethodCount(conn.db, c.pid) <= 1 {
      conn.Rollback();
      return Err(LastSignInMethod);
    }
    if !HasWay(conn.db, c.pid, way) {
      conn.Rollback();
      return Err(UnknownMethod);
    }
    var did := if discord.Some? then discord.value else "";
    WayRemovedKeeps(conn.db, c.pid, way, did);
    StillHasMethod(conn.db, WayRemoved(conn.db, c.pid, way, did), c.pid);
    RemovedIsLost(conn.db, c.pid, way, did);
    RemovedVersions(conn.db, c.pid, way, did);
    hide *;
    conn.db := WayRemoved(conn.db, c.pid, way, did);
    conn.Commit();
    return Ok(());
  }

  lemma WhenSeveral(db: Db, pid: string, way: Way)
    ensures HasWay(db, pid, way) && MethodCount(db, pid) > 1 <==>
              Offers(db, pid, way) && exists other :: other != way && Offers(db, pid, other)
  {
    hide Offers, HasWay, MethodCount;
    forall w ensures HasWay(db, pid, w) <==> Offers(db, pid, w) {
      HasIsOffered(db, pid, w);
    }
    if HasWay(db, pid, way) {
      SeveralWays(db, pid, way);
    }
  }

  lemma StillHasMethod(a: Db, b: Db, pid: string)
    requires Evolves(a, b) && MethodCount(a, pid) > 1
    ensures HasMethod(b, pid)
  {
    assert MethodsKept(a, b);
    if HasPassword(a, pid) || HasDiscord(a, pid) {
      assert HasMethod(a, pid);
    }
  }

  // --------------------------------------------------- moving and ending sessions

  predicate Switchable(db: Db, c: Current, aid: int, now: int) {
    && c.sid in db.sessions
    && var s := db.sessions[c.sid];
    && s.token == c.token && s.pid == c.pid && !s.revoked && s.expires >= now
    && AccountOpen(db, c.pid, aid) && CredentialActive(db, c.pid, s.credential)
  }

  function Switched(db: Db, sid: string, aid: int, token: string): Db
    requires sid in db.sessions && Key(db.sessions[sid].pid, aid) in db.bindings
  {
    var s := db.sessions[sid];
    PutSession(db, sid, s.(token := token, aid := aid, lv := db.bindings[Key(s.pid, aid)].version))
  }

  lemma SwitchedKeeps(a: Db, c: Current, aid: int, token: string, now: int)
    requires Inv(a) && Switchable(a, c, aid, now) && token !in a.drawn
    ensures var b := Switched(a, c.sid, aid, token);
            Inv(b) && Evolves(a, b) && StaleStaysBut(a, b, c.sid) && !Stale(b, c.sid)
  {
    SessionsMeanInstalled(a, c.sid);
    assert References(a);
    var s := a.sessions[c.sid];
    var t := s.(token := token, aid := aid, lv := a.bindings[Key(s.pid, aid)].version);
    assert SessionFits(a, c.sid, t);
    hide Inv, Evolves, StaleStaysBut;
    PutSessionKeeps(a, c.sid, t);
  }

  /** The session is the profile's own and open, and the account is held. */
  lemma SwitchableMeans(db: Db, c: Current, aid: int, now: int)
    requires Inv(db)
    ensures Switchable(db, c, aid, now) <==>
              && c.sid in db.sessions
              && var s := db.sessions[c.sid];
              && s.token == c.token && s.pid == c.pid && !s.revoked && now <= s.expires
              && c.pid in db.profiles && !db.profiles[c.pid].disabled
              && Key(c.pid, aid) in db.bindings && db.bindings[Key(c.pid, aid)].revokedAt.None?
    ensures c.sid in db.sessions ==> c.sid in db.drawn
  {
    SessionFacts(db);
    if c.sid in db.sessions {
      SessionsMeanInstalled(db, c.sid);
      ViewIsBinding(db, Key(c.pid, aid));
    }
    hide Inv, InView, CredentialActive, AccountOpen;
    assert AccountOpen(db, c.pid, aid) ==> InView(db, Key(c.pid, aid)) by { OpenIsInView(db, c.pid, aid); }
  }

  lemma OpenIsInView(db: Db, pid: string, aid: int)
    ensures AccountOpen(db, pid, aid) ==> InView(db, Key(pid, aid))
  {
  }

  /** Moves a session to another of the profile's accounts. It checks everything but
      whether the session itself had been left behind; so exactly the requests that
      come through the front door leave stale sessions stale. */
  method SwitchSession(conn: Connection, c: Current, aid: int, token: string, now: int)
    returns (r: Result<string, AuthError>)
    requires Inv(conn.db) && token !in conn.db.drawn
    modifies conn
    ensures old(conn.Idle()) ==> conn.Idle()
    ensures r.Ok? <==> old(conn.Idle()) && Switchable(old(conn.db), c, aid, now)
    ensures r.Err? ==> conn.db == old(conn.db)
    ensures r.Ok? ==> r.value == token && conn.db == Switched(old(conn.db), c.sid, aid, token)
    ensures r.Ok? <==>
              && old(conn.Idle()) && c.sid in old(conn.db).sessions
              && var s := old(conn.db).sessions[c.sid];
              && s.token == c.token && s.pid == c.pid && !s.revoked && now <= s.expires
              && c.pid in old(conn.db).profiles && !old(conn.db).profiles[c.pid].disabled
              && Key(c.pid, aid) in old(conn.db).bindings && old(conn.db).bindings[Key(c.pid, aid)].revokedAt.None?
    ensures r.Ok? ==>
              var s := old(conn.db).sessions[c.sid];
              conn.db == old(conn.db).(drawn := old(conn.db).drawn + {token},
                                       sessions := old(conn.db).sessions[c.sid := s.(
                                         token := token, aid := aid,
                                         lv := old(conn.db).bindings[Key(c.pid, aid)].version)])
    ensures Inv(conn.db) && Evolves(old(conn.db), conn.db)
    ensures r.Ok? ==> (StaleStays(old(conn.db), conn.db) <==> !Stale(old(conn.db), c.sid))
    ensures SignedIn(old(conn.db), c, now) ==> StaleStays(old(conn.db), conn.db)
  {
    EvolvesItself(conn.db);
    SwitchableMeans(conn.db, c, aid, now);
    hide *;
    var ok := conn.Begin();
    if !ok {
      return Err(TransactionActive);
    }
    if !Switchable(conn.db, c, aid, now) {
      conn.Rollback();
      return Err(AccountUnavailable);
    }
    SwitchedIs(conn.db, c, aid, token);
    SwitchedKeeps(conn.db, c, aid, token, now);
    RevivedOrNot(conn.db, Switched(conn.db, c.sid, aid, token), c, now);
    var s := conn.db.sessions[c.sid];
    conn.db := conn.db.(sessions := conn.db.sessions[c.sid := s.(token := token, aid := aid,
                                                                 lv := conn.db.bindings[Key(c.pid, aid)].version)],
                        drawn := conn.db.drawn + {token});
    conn.Commit();
    return Ok(token);
  }

  lemma SwitchedIs(db: Db, c: Current, aid: int, token: string)
    requires c.sid in db.sessions && c.sid in db.drawn && db.sessions[c.sid].pid == c.pid
    requires Key(c.pid, aid) in db.bindings
    ensures Switched(db, c.sid, aid, token) ==
            db.(drawn := db.drawn + {token},
                sessions := db.sessions[c.sid := db.sessions[c.sid].(
                  token := token, aid := aid, lv := db.bindings[Key(c.pid, aid)].version)])
  {
    assert db.drawn + {c.sid, token} == db.drawn + {token};
  }

  lemma RevivedOrNot(a: Db, b: Db, c: Current, now: int)
    requires c.sid in a.sessions && c.sid in b.sessions && StaleStaysBut(a, b, c.sid) && !Stale(b, c.sid)
    ensures StaleStays(a, b) <==> !Stale(a, c.sid)
    ensures SignedIn(a, c, now) ==> !Stale(a, c.sid)
  {
    if SignedIn(a, c, now) {
      SignedInIsNotStale(a, c, now);
    }
    if !Stale(a, c.sid) {
      StaleButNone(a, b, c.sid);
    }
    hide Stale;
  }

  lemma SignOutOne(db: Db, i: string)
    requires i in db.sessions
    ensures SignOut(db, {i}) == db.(sessions := db.sessions[i := db.sessions[i].(revoked := true)])
  {
  }

  method RevokeSession(conn: Connection, c: Current, target: string, now: int) returns (r: Result<(), AuthError>)
    requires Inv(conn.db)
    modifies conn
    ensures old(conn.Idle()) ==> conn.Idle()
    ensures r.Ok? <==> && old(conn.Idle()) && Recent(old(conn.db), c.pid, c, now)
                       && target in old(conn.db).sessions && old(conn.db).sessions[target].pid == c.pid
                       && !old(conn.db).sessions[target].revoked
    ensures conn.db == if r.Ok? then SignOut(old(conn.db), {target}) else old(conn.db)
    ensures r.Ok? <==> && old(conn.Idle()) && Proved(old(conn.db), c, now)
                       && target in old(conn.db).sessions && old(conn.db).sessions[target].pid == c.pid
                       && !old(conn.db).sessions[target].revoked
    ensures conn.db == old(conn.db).(sessions :=
              if r.Ok? then old(conn.db).sessions[target := old(conn.db).sessions[target].(revoked := true)]
              else old(conn.db).sessions)
    ensures Inv(conn.db) && Evolves(old(conn.db), conn.db) && StaleStays(old(conn.db), conn.db)
  {
    EvolvesItself(conn.db);
    RecentIsProved(conn.db, c, now);
    hide Inv, Evolves, StaleStays, Recent, Proved;
    var ok := conn.Begin();
    if !ok {
      return Err(TransactionActive);
    }
    if !Recent(conn.db, c.pid, c, now) {
      conn.Rollback();
      return Err(Reauthenticate);
    }
    if !(target in conn.db.sessions && conn.db.sessions[target].pid == c.pid && !conn.db.sessions[target].revoked) {
      conn.Rollback();
      return Err(SessionUnavailable);
    }
    SignOutKeeps(conn.db, {target});
    SignOutOne(conn.db, target);
    hide SignOut;
    conn.db := SignOut(conn.db, {target});
    conn.Commit();
    return Ok(());
  }
}
