/** Game accounts and the profiles that hold them: the credential tables' own
    installation, sign-in, linking and unlinking, and a profile made from a verified
    game code. */
module PortalAccounts {
  import opened Wrappers
  import opened PortalTables
  import opened PortalIdentity
  import opened PortalSteps
  import opened PortalSessions

  const CHALLENGE_TTL := 300
  const TICKET_TTL := 600
  const MAX_ATTEMPTS := 5

  // ------------------------------------------------------------- default account

  /** Linked earlier, or at the same time under a smaller number. */
  predicate Before(db: Db, j: Key, k: Key)
    requires j in db.bindings && k in db.bindings
  {
    || db.bindings[j].linkedAt < db.bindings[k].linkedAt
    || (db.bindings[j].linkedAt == db.bindings[k].linkedAt && j.aid <= k.aid)
  }

  predicate IsFirst(db: Db, k: Key) {
    InView(db, k) && forall j :: j in db.bindings && j.pid == k.pid && InView(db, j) ==> Before(db, k, j)
  }

  /** The account a session falls to when none is named: the first one linked, or
      none. */
  predicate IsDefault(db: Db, pid: string, aid: int) {
    if aid == 0 then forall k :: k in db.bindings && k.pid == pid ==> !InView(db, k)
    else IsFirst(db, Key(pid, aid))
  }

  method FirstAccount(db: Db, pid: string) returns (aid: int)
    requires References(db)
    ensures IsDefault(db, pid, aid)
  {
    hide InView;
    aid := 0;
    var todo := db.bindings.Keys;
    while todo != {}
      invariant todo <= db.bindings.Keys
      invariant if aid == 0 then forall k :: k in db.bindings && k !in todo && k.pid == pid ==> !InView(db, k)
                else Key(pid, aid) in db.bindings && InView(db, Key(pid, aid))
                     && forall j :: j in db.bindings && j !in todo && j.pid == pid && InView(db, j) ==>
                          Before(db, Key(pid, aid), j)
    {
      var k :| k in todo;
      if k.pid == pid && InView(db, k) && (aid == 0 || Before(db, k, Key(pid, aid))) {
        aid := k.aid;
      }
      todo := todo - {k};
    }
  }

  /** Of the accounts that an enabled profile holds the one linked first, the smaller
      number of two linked together; 0 when there is none. */
  ghost predicate Earliest(db: Db, pid: string, aid: int) {
    var enabled := pid in db.profiles && !db.profiles[pid].disabled;
    if aid == 0 then enabled ==> forall k :: k in db.bindings && k.pid == pid ==> db.bindings[k].revokedAt.Some?
    else
      && enabled && Key(pid, aid) in db.bindings && db.bindings[Key(pid, aid)].revokedAt.None?
      && forall k :: k in db.bindings && k.pid == pid && db.bindings[k].revokedAt.None? ==>
           || db.bindings[Key(pid, aid)].linkedAt < db.bindings[k].linkedAt
           || (db.bindings[Key(pid, aid)].linkedAt == db.bindings[k].linkedAt && aid <= k.aid)
  }

  lemma DefaultIsEarliest(db: Db, pid: string, aid: int)
    requires Inv(db)
    ensures IsDefault(db, pid, aid) <==> Earliest(db, pid, aid)
  {
    forall k | k in db.bindings && k.pid == pid
      ensures InView(db, k) <==> pid in db.profiles && !db.profiles[pid].disabled && db.bindings[k].revokedAt.None?
    {
      ViewIsBinding(db, k);
    }
    hide Inv, InView;
    if IsDefault(db, pid, aid) && aid != 0 {
      assert Key(pid, aid) in db.bindings by { ShownIsBound(db, Key(pid, aid)); }
    }
  }

  lemma ShownIsBound(db: Db, k: Key)
    requires InView(db, k)
    ensures k in db.bindings
  {
  }

  // -------------------------------------------------------------------- sign-in

  function FreshSession(db: Db, pid: string, c: Credential, token: string, authAt: int, aid: int, now: int): Session
    requires aid != 0 ==> Key(pid, aid) in db.bindings
  {
    Session(token, pid, aid, if aid == 0 then 0 else db.bindings[Key(pid, aid)].version, c,
            authAt, now, now, now + SESSION_ABSOLUTE, false)
  }

  function SignedUp(db: Db, pid: string): Db {
    if pid in db.users then db else PutName(db, pid, None)
  }

  function SessionMade(db: Db, pid: string, c: Credential, sid: string, token: string, authAt: int, aid: int,
        now: int): Db
    requires aid != 0 ==> Key(pid, aid) in db.bindings
  {
    PutSession(SignedUp(db, pid), sid, FreshSession(db, pid, c, token, authAt, aid, now))
  }

  lemma FreshIsBound(a: Db, pid: string, c: Credential, token: string, authAt: int, aid: int, now: int)
    requires aid != 0 ==> Key(pid, aid) in a.bindings
    ensures var s := FreshSession(a, pid, c, token, authAt, aid, now);
            SessionBound(a.bindings, s) && s.pid == pid && s.token == token && s.credential == c
  {
  }

  lemma SignedUpSame(a: Db, pid: string)
    ensures var m := SignedUp(a, pid);
            && m.installed == a.installed && m.profiles == a.profiles && m.bindings == a.bindings
            && m.sessions == a.sessions && m.drawn == a.drawn
    ensures forall c :: CredentialActive(SignedUp(a, pid), pid, c) <==> CredentialActive(a, pid, c)
  {
  }

  lemma FreshFits(a: Db, pid: string, c: Credential, sid: string, token: string, authAt: int, aid: int, now: int)
    requires Inv(a) && a.installed && pid in a.profiles && CredentialActive(a, pid, c)
    requires aid != 0 ==> Key(pid, aid) in a.bindings
    requires sid !in a.drawn && token !in a.drawn
    ensures sid !in a.sessions && SessionFits(SignedUp(a, pid), sid, FreshSession(a, pid, c, token, authAt, aid, now))
  {
    assert sid !in a.sessions by { SessionFacts(a); }
    SignedUpSame(a, pid);
    FreshIsBound(a, pid, c, token, authAt, aid, now);
    hide Inv, SignedUp, FreshSession, CredentialActive, SessionBound;
  }

  lemma SessionMadeKeeps(a: Db, pid: string, c: Credential, sid: string, token: string, authAt: int, aid: int, now: int)
    requires Inv(a) && a.installed && pid in a.profiles && CredentialActive(a, pid, c)
    requires aid != 0 ==> Key(pid, aid) in a.bindings
    requires sid !in a.drawn && token !in a.drawn
    ensures var b := SessionMade(a, pid, c, sid, token, authAt, aid, now);
            Inv(b) && Evolves(a, b) && StaleStays(a, b)
  {
    hide Inv, Evolves, StaleStays, StaleStaysBut, SessionFits, CredentialActive, SignedUp, PutSession, Stale;
    var m, s := SignedUp(a, pid), FreshSession(a, pid, c, token, authAt, aid, now);
    FreshFits(a, pid, c, sid, token, authAt, aid, now);
    SignedUpKeeps(a, pid);
    PutSessionKeeps(m, sid, s);
    EvolvesChain(a, m, PutSession(m, sid, s));
    StaleIsBut(a, m, sid);
    StaleButChain(a, m, PutSession(m, sid, s), sid);
    StaleButNone(a, PutSession(m, sid, s), sid);
  }

  lemma SignedUpKeeps(a: Db, pid: string)
    requires Inv(a) && a.installed
    ensures Inv(SignedUp(a, pid)) && Evolves(a, SignedUp(a, pid)) && StaleStays(a, SignedUp(a, pid))
  {
    hide Inv, Evolves, StaleStays;
    if pid in a.users {
      EvolvesItself(a);
    } else {
      PutNameKeeps(a, pid, None);
    }
  }

  /** The rules of signing in: an enabled profile, a way in that it has, and an
      account that is its own, or the first it has when none is named. */
  predicate MayEnter(db: Db, pid: string, c: Credential, aid: Option<int>) {
    && ProfileActive(db, pid) && CredentialActive(db, pid, c)
    && (aid.Some? && aid.value != 0 ==> AccountOpen(db, pid, aid.value))
  }

  /** The profile is enabled, the way in is one it has now, and the account, if one is
      named, is held. */
  ghost predicate Admitted(db: Db, pid: string, c: Credential, aid: Option<int>) {
    && pid in db.profiles && !db.profiles[pid].disabled
    && (match c
        case DiscordSubject(d) => d in db.providers && db.providers[d].pid == pid && !db.providers[d].revoked
        case PasswordVersion(v) => pid in db.passwords && db.passwords[pid].version == v && !db.passwords[pid].revoked
        case PasskeyId(k) => k in db.passkeys && db.passkeys[k].pid == pid && !db.passkeys[k].revoked)
    && (aid.Some? && aid.value != 0 ==>
          Key(pid, aid.value) in db.bindings && db.bindings[Key(pid, aid.value)].revokedAt.None?)
  }

  lemma EnteringIsAdmitted(db: Db, pid: string, c: Credential, aid: Option<int>)
    requires Inv(db) && db.installed
    ensures MayEnter(db, pid, c, aid) <==> Admitted(db, pid, c, aid)
  {
    if aid.Some? {
      ViewIsBinding(db, Key(pid, aid.value));
    }
    hide Inv, InView, AccountOpen;
  }

  /** What a sign-in writes: the session, good for thirty days and for the present
      version of its account, and a row for whoever had no sign-in data. */
  ghost predicate SessionOpened(a: Db, b: Db, pid: string, c: Credential, sid: string, token: string, authAt: int,
        aid: int, now: int) {
    && (aid != 0 ==> Key(pid, aid) in a.bindings)
    && b == a.(sessions := a.sessions[sid := Session(token, pid, aid,
                                                     if aid == 0 then 0 else a.bindings[Key(pid, aid)].version, c,
                                                     authAt, now, now, now + 30 * 86400, false)],
               users := if pid in a.users then a.users else a.users[pid := None], drawn := a.drawn + {sid, token})
  }

  lemma MadeIsOpened(a: Db, pid: string, c: Credential, sid: string, token: string, authAt: int, aid: int, now: int)
    requires aid != 0 ==> Key(pid, aid) in a.bindings
    ensures SessionOpened(a, SessionMade(a, pid, c, sid, token, authAt, aid, now), pid, c, sid, token, authAt, aid, now)
  {
  }

  /** The write behind a new session, inside a transaction of its caller. */
  method MakeSession(db: Db, pid: string, c: Credential, authAt: Option<int>, aid: Option<int>, sid: string,
        token: string, now: int)
    returns (r: Result<Db, AuthError>, ghost chosen: int)
    requires Inv(db) && db.installed && sid !in db.drawn && token !in db.drawn
    ensures r.Ok? <==> MayEnter(db, pid, c, aid)
    ensures r.Ok? ==> if aid.Some? then chosen == aid.value else IsDefault(db, pid, chosen)
    ensures r.Ok? ==>
              && (chosen != 0 ==> Key(pid, chosen) in db.bindings && AccountOpen(db, pid, chosen))
              && r.value == SessionMade(db, pid, c, sid, token, if authAt.Some? then authAt.value else now, chosen, now)
              && Inv(r.value) && Evolves(db, r.value) && StaleStays(db, r.value)
              && SignedIn(r.value, Current(pid, chosen, sid, token), now)
  {
    chosen := 0;
    if !ProfileActive(db, pid) || !CredentialActive(db, pid, c) {
      r := Err(SignInFailed);
      return;
    }
    assert References(db);
    var account;
    if aid.Some? {
      account := aid.value;
    } else {
      account := FirstAccount(db, pid);
    }
    chosen := account;
    if account != 0 {
      ViewIsBinding(db, Key(pid, account));
    }
    hide Inv, Evolves, StaleStays;
    if account != 0 && !AccountOpen(db, pid, account) {
      r := Err(AccountUnavailable);
      return;
    }
    var at := if authAt.Some? then authAt.value else now;
    SessionMadeKeeps(db, pid, c, sid, token, at, account, now);
    MadeIsSignedIn(db, pid, c, sid, token, at, account, now);
    var m := SignedUp(db, pid);
    r := Ok(m.(sessions := m.sessions[sid := FreshSession(db, pid, c, token, at, account, now)],
               drawn := m.drawn + {sid, token}));
  }

  lemma MadeIsSignedIn(a: Db, pid: string, c: Credential, sid: string, token: string, authAt: int, aid: int, now: int)
    requires ProfileActive(a, pid) && CredentialActive(a, pid, c) && (aid != 0 ==> AccountOpen(a, pid, aid))
    ensures SignedIn(SessionMade(a, pid, c, sid, token, authAt, aid, now), Current(pid, aid, sid, token), now)
  {
  }

  method CreateSession(conn: Connection, pid: string, c: Credential, authAt: Option<int>, aid: Option<int>,
        sid: string, token: string, now: int)
    returns (r: Result<string, AuthError>, ghost chosen: int)
    requires Inv(conn.db) && conn.db.installed && sid !in conn.db.drawn && token !in conn.db.drawn
    modifies conn
    ensures old(conn.Idle()) ==> conn.Idle()
    ensures r.Ok? <==> old(conn.Idle()) && MayEnter(old(conn.db), pid, c, aid)
    ensures r.Err? ==> conn.db == old(conn.db)
    ensures r.Ok? ==> if aid.Some? then chosen == aid.value else IsDefault(old(conn.db), pid, chosen)
    ensures r.Ok? ==> r.value == token && SignedIn(conn.db, Current(pid, chosen, sid, token), now)
    ensures r.Ok? ==>
              && (chosen != 0 ==> Key(pid, chosen) in old(conn.db).bindings && AccountOpen(old(conn.db), pid, chosen))
              && conn.db == SessionMade(old(conn.db), pid, c, sid, token,
                                        if authAt.Some? then authAt.value else now, chosen, now)
    ensures r.Ok? <==> old(conn.Idle()) && Admitted(old(conn.db), pid, c, aid)
    ensures r.Ok? ==>
              && (aid.None? ==> Earliest(old(conn.db), pid, chosen))
              && SessionOpened(old(conn.db), conn.db, pid, c, sid, token,
                               if authAt.Some? then authAt.value else now, chosen, now)
    ensures Inv(conn.db) && Evolves(old(conn.db), conn.db) && StaleStays(old(conn.db), conn.db)
  {
    EvolvesItself(conn.db);
    hide *;
    EnteringIsAdmitted(conn.db, pid, c, aid);
    chosen := 0;
    var ok := conn.Begin();
    if !ok {
      r := Err(TransactionActive);
      return;
    }
    var made;
    made, chosen := MakeSession(conn.db, pid, c, authAt, aid, sid, token, now);
    if made.Err? {
      conn.Rollback();
      r := Err(made.error);
      return;
    }
    MadeIsOpened(conn.db, pid, c, sid, token, if authAt.Some? then authAt.value else now, chosen, now);
    DefaultIsEarliest(conn.db, pid, chosen);
    conn.db := made.value;
    conn.Commit();
    r := Ok(token);
  }

  // -------------------------------------------------------------------- Discord

  lemma OwnProviders(providers: Providers, pid: string, did: string)
    ensures (forall d :: d in providers && providers[d] == Provider(pid, false) ==> d == did) <==>
              forall d :: d in providers && providers[d].pid == pid && !providers[d].revoked ==> d == did
  {
    forall d | d in providers
      ensures providers[d] == Provider(pid, false) <==> providers[d].pid == pid && !providers[d].revoked
    {
    }
  }

  /** Links a Discord identity to sign in with: nobody else's, and no second one. */
  method LinkDiscord(conn: Connection, c: Current, did: string, now: int) returns (r: Result<(), AuthError>)
    requires Inv(conn.db)
    modifies conn
    ensures old(conn.Idle()) ==> conn.Idle()
    ensures r.Ok? <==> && ValidDiscordId(did) && old(conn.Idle()) && Recent(old(conn.db), c.pid, c, now)
                       && (did in old(conn.db).providers ==> old(conn.db).providers[did].pid == c.pid)
                       && (forall d ::
                             d in old(conn.db).providers && old(conn.db).providers[d] == Provider(c.pid, false) ==>
                               d == did)
    ensures conn.db == if r.Ok? then PutProvider(old(conn.db), did, Provider(c.pid, false)) else old(conn.db)
    ensures r.Ok? <==> && 1 <= |did| <= 20 && did[0] != '0' && (forall i :: 0 <= i < |did| ==> '0' <= did[i] <= '9')
                       && old(conn.Idle()) && Proved(old(conn.db), c, now)
                       && (did in old(conn.db).providers ==> old(conn.db).providers[did].pid == c.pid)
                       && (forall d | d in old(conn.db).providers && old(conn.db).providers[d].pid == c.pid
                                      && !old(conn.db).providers[d].revoked :: d == did)
    ensures r.Ok? ==>
              conn.db == old(conn.db).(providers := old(conn.db).providers[did := Provider(c.pid, false)])
    ensures Inv(conn.db) && Evolves(old(conn.db), conn.db) && StaleStays(old(conn.db), conn.db)
  {
    EvolvesItself(conn.db);
    assert ProvidersOk(conn.db.providers, conn.db.profiles);
    RecentIsProved(conn.db, c, now);
    OwnProviders(conn.db.providers, c.pid, did);
    assert ValidDiscordId(did) <==>
      1 <= |did| <= 20 && did[0] != '0' && forall i :: 0 <= i < |did| ==> '0' <= did[i] <= '9';
    hide Inv, Evolves, StaleStays, ValidDiscordId, Proved;
    if !ValidDiscordId(did) {
      return Err(DiscordFailed);
    }
    var ok := conn.Begin();
    if !ok {
      return Err(TransactionActive);
    }
    if !Recent(conn.db, c.pid, c, now) {
      conn.Rollback();
      return Err(Reauthenticate);
    }
    RecentFacts(conn.db, c, now);
    hide Recent;
    if did in conn.db.providers && conn.db.providers[did].pid != c.pid {
      conn.Rollback();
      return Err(ProviderInUse);
    }
    var existing := FindDiscord(conn.db.providers, c.pid);
    if existing.Some? && existing.value != did {
      conn.Rollback();
      return Err(DiscordAlreadyLinked);
    }
    LinkProviderKeeps(conn.db, did, c.pid);
    conn.db := conn.db.(providers := conn.db.providers[did := Provider(c.pid, false)]);
    conn.Commit();
    return Ok(());
  }

  // ------------------------------------------------------------------ unlinking

  /** A binding let go, and the link it mirrors with it. */
  function LetGo(db: Db, k: Key, now: int): Db
    requires k in db.bindings && (db.bindings[k].legacy.Some? ==> db.bindings[k].legacy.value in db.links)
  {
    var b := db.bindings[k];
    db.(links := match b.legacy
                 case None => db.links
                 case Some(l) => db.links[l := db.links[l].(revokedAt := Some(now))],
        bindings := db.bindings[k := b.(revokedAt := Some(now), version := b.version + 1)])
  }

  /** Changing a binding and the link it names in the same way keeps the tables
      mirrored. */
  lemma BothSidesMirror(a: Db, k: Key, linkedAt: int, revokedAt: Option<int>, version: int)
    requires Mirror(a.links, a.profiles, a.bindings) && UniqueLegacy(a.profiles) && k in a.bindings
    ensures a.bindings[k].legacy.Some? ==> a.bindings[k].legacy.value in a.links
    ensures Mirror(match a.bindings[k].legacy
                   case None => a.links
                   case Some(l) => a.links[l := a.links[l].(linkedAt := linkedAt, revokedAt := revokedAt)],
                   a.profiles, a.bindings[k := a.bindings[k].(linkedAt := linkedAt, revokedAt := revokedAt,
                                                              version := version)])
  {
    assert Mirrors(a.links, a.profiles, k, a.bindings[k]);
    var links := match a.bindings[k].legacy
                 case None => a.links
                 case Some(l) => a.links[l := a.links[l].(linkedAt := linkedAt, revokedAt := revokedAt)];
    var bindings := a.bindings[k := a.bindings[k].(linkedAt := linkedAt, revokedAt := revokedAt, version := version)];
    forall j | j in bindings ensures Mirrors(links, a.profiles, j, bindings[j]) {
      assert Mirrors(a.links, a.profiles, j, a.bindings[j]);
      if j != k && a.bindings[k].legacy.Some? && a.bindings[j].legacy == a.bindings[k].legacy {
        SameSource(a, j, k);
      }
    }
    forall l | l in links ensures exists p :: MirroredBy(links, bindings, l, p) {
      var p :| MirroredBy(a.links, a.bindings, l, p);
      assert MirroredBy(links, bindings, l, p);
    }
  }

  lemma SameSource(a: Db, j: Key, k: Key)
    requires Mirror(a.links, a.profiles, a.bindings) && UniqueLegacy(a.profiles)
    requires j in a.bindings && k in a.bindings && a.bindings[k].legacy.Some?
    requires a.bindings[j].legacy == a.bindings[k].legacy
    ensures j == k
  {
    assert Mirrors(a.links, a.profiles, j, a.bindings[j]) && Mirrors(a.links, a.profiles, k, a.bindings[k]);
  }

  /** One binding rewritten, with its owner on record if it is active now. */
  lemma OneBindingHolds(was: Bindings, owners: Owners, more: Owners, k: Key, b: Binding)
    requires OwnersHold(was, owners) && forall n :: n in owners ==> n in more && more[n] == owners[n]
    requires Active(b) ==> k.aid in more && more[k.aid] == Some(k.pid)
    ensures OwnersHold(was[k := b], more) && UniqueActive(was[k := b])
  {
  }

  lemma OneBindingRises(was: Bindings, k: Key, b: Binding)
    requires k in was ==> b.legacy == was[k].legacy && was[k].version < b.version
    ensures VersionsRise(was, was[k := b])
  {
  }

  lemma LetGoMirrors(a: Db, k: Key, now: int)
    requires Mirror(a.links, a.profiles, a.bindings) && UniqueLegacy(a.profiles) && k in a.bindings
    ensures a.bindings[k].legacy.Some? ==> a.bindings[k].legacy.value in a.links
    ensures var b := LetGo(a, k, now); Mirror(b.links, b.profiles, b.bindings)
  {
    BothSidesMirror(a, k, a.bindings[k].linkedAt, Some(now), a.bindings[k].version + 1);
    MirrorAt(a, k);
    hide Mirror, UniqueLegacy;
  }

  lemma LetGoKeeps(a: Db, k: Key, now: int)
    requires Inv(a) && a.installed && k in a.bindings && Active(a.bindings[k])
    ensures a.bindings[k].legacy.Some? ==> a.bindings[k].legacy.value in a.links
    ensures var b := LetGo(a, k, now);
            Inv(b) && Evolves(a, b) && StaleStays(a, b)
  {
    LetGoMirrors(a, k, now);
    var b := LetGo(a, k, now);
    assert References(b) by { assert References(a); }
    assert OwnersHold(a.bindings, a.owners) && UniqueLegacy(a.profiles) && ProvidersOk(a.providers, a.profiles);
    hide Inv, Mirror, UniqueLegacy, ProvidersOk, Evolves, StaleStays, OwnersHold, VersionsRise, References,
          UniqueActive, Mirrors, MirroredBy;
    OneBindingHolds(a.bindings, a.owners, a.owners, k, b.bindings[k]);
    OneBindingRises(a.bindings, k, b.bindings[k]);
    LinkTablesOnly(a, b);
  }

  lemma MirrorAt(a: Db, k: Key)
    requires Mirror(a.links, a.profiles, a.bindings) && k in a.bindings
    ensures Mirrors(a.links, a.profiles, k, a.bindings[k])
  {
  }

  /** A profile's sessions on an account, other than one. */
  function SessionsOn(sessions: Sessions, pid: string, aid: int, but: string): set<string> {
    set i | i in sessions && sessions[i].pid == pid && sessions[i].aid == aid && i != but
  }

  function Repointed(db: Db, sid: string, aid: int): Db
    requires sid in db.sessions && (aid != 0 ==> Key(db.sessions[sid].pid, aid) in db.bindings)
  {
    var s := db.sessions[sid];
    PutSession(db, sid, s.(aid := aid, lv := if aid == 0 then 0 else db.bindings[Key(s.pid, aid)].version))
  }

  lemma RepointedKeeps(a: Db, sid: string, aid: int)
    requires Inv(a) && sid in a.sessions && (aid != 0 ==> Key(a.sessions[sid].pid, aid) in a.bindings)
    ensures Inv(Repointed(a, sid, aid)) && Evolves(a, Repointed(a, sid, aid))
    ensures StaleStaysBut(a, Repointed(a, sid, aid), sid)
  {
    SessionsMeanInstalled(a, sid);
    var s := a.sessions[sid];
    var t := s.(aid := aid, lv := if aid == 0 then 0 else a.bindings[Key(s.pid, aid)].version);
    assert SessionFits(a, sid, t) by { assert References(a) && CredentialsHold(a); }
    hide Inv, Evolves, StaleStaysBut, SessionFits;
    PutSessionKeeps(a, sid, t);
  }

  function LetGoAll(db: Db, c: Current, aid: int, now: int): Db
    requires var k := Key(c.pid, aid);
             && k in db.bindings
             && (db.bindings[k].legacy.Some? ==> db.bindings[k].legacy.value in db.links)
  {
    SignOut(LetGo(db, Key(c.pid, aid), now), SessionsOn(db.sessions, c.pid, aid, c.sid))
  }

  lemma LetGoAllKeeps(a: Db, c: Current, aid: int, now: int)
    requires Inv(a) && a.installed && Key(c.pid, aid) in a.bindings && Active(a.bindings[Key(c.pid, aid)])
    ensures a.bindings[Key(c.pid, aid)].legacy.Some? ==> a.bindings[Key(c.pid, aid)].legacy.value in a.links
    ensures var b := LetGoAll(a, c, aid, now); Inv(b) && Evolves(a, b) && StaleStays(a, b)
  {
    hide Inv, Evolves, StaleStays, LetGo, SessionsOn, SignOut, Active;
    LetGoKeeps(a, Key(c.pid, aid), now);
    var m := LetGo(a, Key(c.pid, aid), now);
    SignOutKeeps(m, SessionsOn(a.sessions, c.pid, aid, c.sid));
    EvolvesChain(a, m, LetGoAll(a, c, aid, now));
    StaleChain(a, m, LetGoAll(a, c, aid, now));
  }

  /** Nobody is left signed in on an account that was given up: every session on it
      has ended or has been left behind. */
  ghost predicate NoneOn(db: Db, k: Key) {
    forall i :: i in db.sessions && db.sessions[i].pid == k.pid && db.sessions[i].aid == k.aid ==>
      db.sessions[i].revoked || Stale(db, i)
  }

  lemma LetGoLeavesNone(a: Db, c: Current, aid: int, now: int)
    requires Key(c.pid, aid) in a.bindings && aid != 0
    requires SessionsBound(a.sessions, a.bindings)
    requires a.bindings[Key(c.pid, aid)].legacy.Some? ==> a.bindings[Key(c.pid, aid)].legacy.value in a.links
    ensures NoneOn(LetGoAll(a, c, aid, now), Key(c.pid, aid))
  {
    var b := LetGoAll(a, c, aid, now);
    forall i | i in b.sessions && b.sessions[i].pid == c.pid && b.sessions[i].aid == aid
      ensures b.sessions[i].revoked || Stale(b, i)
    {
      assert SessionBound(a.bindings, a.sessions[i]);
    }
  }

  lemma RepointedLeavesNone(a: Db, sid: string, aid: int, k: Key)
    requires NoneOn(a, k) && sid in a.sessions && aid != k.aid
    requires (aid != 0 ==> Key(a.sessions[sid].pid, aid) in a.bindings)
    ensures NoneOn(Repointed(a, sid, aid), k)
  {
    var b := Repointed(a, sid, aid);
    forall i | i in b.sessions && b.sessions[i].pid == k.pid && b.sessions[i].aid == k.aid
      ensures b.sessions[i].revoked || Stale(b, i)
    {
      assert i != sid && b.sessions[i] == a.sessions[i];
      assert a.sessions[i].revoked || Stale(a, i);
    }
  }

  /** The session that asked goes on with the first account left. */
  method MoveOn(db: Db, c: Current, aid: int) returns (b: Db, survivor: int)
    requires Inv(db) && c.sid in db.sessions && db.sessions[c.sid].pid == c.pid && NoneOn(db, Key(c.pid, aid))
    requires Key(c.pid, aid) in db.bindings && !Active(db.bindings[Key(c.pid, aid)]) && aid != 0
    ensures IsDefault(db, c.pid, survivor) && (survivor != 0 ==> Key(c.pid, survivor) in db.bindings)
    ensures b == Repointed(db, c.sid, survivor) && NoneOn(b, Key(c.pid, aid))
    ensures Inv(b) && Evolves(db, b) && StaleStaysBut(db, b, c.sid)
  {
    assert References(db);
    hide Inv, Evolves, StaleStaysBut, NoneOn, References;
    survivor := FirstAccount(db, c.pid);
    RepointedKeeps(db, c.sid, survivor);
    RepointedLeavesNone(db, c.sid, survivor, Key(c.pid, aid));
    var s := db.sessions[c.sid];
    var lv := if survivor == 0 then 0 else db.bindings[Key(c.pid, survivor)].version;
    b := db.(sessions := db.sessions[c.sid := s.(aid := survivor, lv := lv)], drawn := db.drawn + {c.sid, s.token});
  }

  lemma LetGoIsInactive(a: Db, c: Current, aid: int, now: int)
    requires Key(c.pid, aid) in a.bindings
    requires a.bindings[Key(c.pid, aid)].legacy.Some? ==> a.bindings[Key(c.pid, aid)].legacy.value in a.links
    ensures var b := LetGoAll(a, c, aid, now);
            Key(c.pid, aid) in b.bindings && !Active(b.bindings[Key(c.pid, aid)])
    ensures c.sid in a.sessions ==>
              && c.sid in LetGoAll(a, c, aid, now).sessions
              && LetGoAll(a, c, aid, now).sessions[c.sid].pid == a.sessions[c.sid].pid
  {
  }

  lemma BoundAccount(a: Db, k: Key)
    requires References(a) && k in a.bindings
    ensures k.aid > 0
  {
  }

  /** What giving an account up changes: the binding and the link it mirrors, marked as
      revoked now; the profile's sessions on it, which end; and the one that asked,
      which goes on with another account if this was its own. */
  ghost predicate AccountLetGo(a: Db, b: Db, c: Current, aid: int, survivor: int, now: int) {
    var k := Key(c.pid, aid);
    && k in a.bindings && b == a.(links := b.links, bindings := b.bindings, sessions := b.sessions)
    && b.bindings == a.bindings[k := a.bindings[k].(revokedAt := Some(now), version := a.bindings[k].version + 1)]
    && (match a.bindings[k].legacy
        case None => b.links == a.links
        case Some(l) => l in a.links && b.links == a.links[l := a.links[l].(revokedAt := Some(now))])
    && b.sessions.Keys == a.sessions.Keys && (survivor != 0 ==> Key(c.pid, survivor) in b.bindings)
    && forall i :: i in a.sessions ==>
         var s := a.sessions[i];
         b.sessions[i] ==
         if i == c.sid then
           if c.aid != aid then s
           else s.(aid := survivor, lv := if survivor == 0 then 0 else b.bindings[Key(c.pid, survivor)].version)
         else if s.pid == c.pid && s.aid == aid then s.(revoked := true)
         else s
  }

  lemma LetGoSessions(a: Db, c: Current, aid: int, now: int)
    requires Key(c.pid, aid) in a.bindings && c.sid in a.sessions
    requires a.bindings[Key(c.pid, aid)].legacy.Some? ==> a.bindings[Key(c.pid, aid)].legacy.value in a.links
    ensures var m, k := LetGoAll(a, c, aid, now), Key(c.pid, aid);
            && m == a.(links := m.links, bindings := m.bindings, sessions := m.sessions)
            && m.bindings
               == a.bindings[k := a.bindings[k].(revokedAt := Some(now), version := a.bindings[k].version + 1)]
            && m.links == (match a.bindings[k].legacy
                           case None => a.links
                           case Some(l) => a.links[l := a.links[l].(revokedAt := Some(now))])
            && m.sessions.Keys == a.sessions.Keys && m.sessions[c.sid] == a.sessions[c.sid]
            && forall i :: i in a.sessions && i != c.sid ==>
                 m.sessions[i] == if a.sessions[i].pid == c.pid && a.sessions[i].aid == aid
                                  then a.sessions[i].(revoked := true) else a.sessions[i]
  {
  }

  lemma LetGoChanges(a: Db, b: Db, c: Current, aid: int, survivor: int, now: int)
    requires Key(c.pid, aid) in a.bindings && c.sid in a.sessions && a.sessions[c.sid].pid == c.pid
    requires a.bindings[Key(c.pid, aid)].legacy.Some? ==> a.bindings[Key(c.pid, aid)].legacy.value in a.links
    requires TokensOk(a.sessions, a.drawn)
    requires var m := LetGoAll(a, c, aid, now);
             && c.sid in m.sessions && m.sessions[c.sid].pid == c.pid
             && (c.aid == aid && survivor != 0 ==> Key(c.pid, survivor) in m.bindings)
             && b == if c.aid == aid then Repointed(m, c.sid, survivor) else m
    ensures AccountLetGo(a, b, c, aid, if c.aid == aid then survivor else 0, now)
  {
    LetGoSessions(a, c, aid, now);
    assert c.sid in a.drawn && a.sessions[c.sid].token in a.drawn;
    assert a.drawn + {c.sid, a.sessions[c.sid].token} == a.drawn;
    hide TokensOk, LetGoAll;
  }

  /** Gives an account up. Its sessions end, and the one that asked moves to the first
      account left, or to none. */
  method UnlinkAccount(conn: Connection, c: Current, aid: int, now: int)
    returns (r: Result<(), AuthError>, survivor: int)
    requires Inv(conn.db)
    modifies conn
    ensures old(conn.Idle()) ==> conn.Idle()
    ensures r.Ok? <==> && old(conn.Idle()) && Recent(old(conn.db), c.pid, c, now)
                       && Key(c.pid, aid) in old(conn.db).bindings && Active(old(conn.db).bindings[Key(c.pid, aid)])
    ensures r.Err? ==> conn.db == old(conn.db)
    ensures r.Ok? && c.aid == aid ==> IsDefault(LetGoAll(old(conn.db), c, aid, now), c.pid, survivor)
    ensures r.Ok? ==>
              conn.db == if c.aid == aid then Repointed(LetGoAll(old(conn.db), c, aid, now), c.sid, survivor)
                         else LetGoAll(old(conn.db), c, aid, now)
    ensures r.Ok? ==> NoneOn(conn.db, Key(c.pid, aid))
    ensures r.Ok? <==> && old(conn.Idle()) && Proved(old(conn.db), c, now)
                       && Key(c.pid, aid) in old(conn.db).bindings
                       && old(conn.db).bindings[Key(c.pid, aid)].revokedAt.None?
    ensures r.Ok? ==>
              && AccountLetGo(old(conn.db), conn.db, c, aid, survivor, now)
              && (c.aid == aid ==> Earliest(conn.db, c.pid, survivor))
    ensures Inv(conn.db) && Evolves(old(conn.db), conn.db)
    ensures SignedIn(old(conn.db), c, now) ==> StaleStays(old(conn.db), conn.db)
  {
    survivor := 0;
    EvolvesItself(conn.db);
    RecentIsProved(conn.db, c, now);
    SessionFacts(conn.db);
    ghost var start := conn.db;
    hide Inv, Evolves, StaleStays, Recent, SignedIn, NoneOn, SessionsBound, IsDefault, LetGo, LetGoAll, Repointed;
    hide Proved, AccountLetGo, Earliest, TokensOk, CredentialsHold, NotYet;
    var ok := conn.Begin();
    if !ok {
      r := Err(TransactionActive);
      return;
    }
    if !Recent(conn.db, c.pid, c, now) {
      conn.Rollback();
      r := Err(Reauthenticate);
      return;
    }
    RecentFacts(conn.db, c, now);
    var k := Key(c.pid, aid);
    if !(k in conn.db.bindings && Active(conn.db.bindings[k])) {
      conn.Rollback();
      r := Err(AccountUnavailable);
      return;
    }
    RecentIsOwn(start, c, now);
    BoundAccount(start, k);
    LetGoAllKeeps(start, c, aid, now);
    LetGoLeavesNone(start, c, aid, now);
    LetGoIsInactive(start, c, aid, now);
    hide References, Active;
    conn.db := LetGoAll(conn.db, c, aid, now);
    ghost var m := conn.db;
    if c.aid == aid {
      conn.db, survivor := MoveOn(conn.db, c, aid);
      EvolvesChain(start, m, conn.db);
    }
    ActorMayMove(start, m, conn.db, c, now);
    LetGoChanges(start, conn.db, c, aid, survivor, now);
    if c.aid == aid {
      DefaultIsEarliest(m, c.pid, survivor);
      StaysEarliest(m, conn.db, c, survivor);
    }
    conn.Commit();
    r := Ok(());
  }

  lemma StaysEarliest(m: Db, b: Db, c: Current, survivor: int)
    requires Earliest(m, c.pid, survivor) && c.sid in m.sessions
    requires survivor != 0 ==> Key(m.sessions[c.sid].pid, survivor) in m.bindings
    requires b == Repointed(m, c.sid, survivor)
    ensures Earliest(b, c.pid, survivor)
  {
    assert b.bindings == m.bindings && b.profiles == m.profiles;
  }

  /** Whoever is let in through the front door may move; nobody else's session does. */
  lemma ActorMayMove(a: Db, m: Db, b: Db, c: Current, now: int)
    requires StaleStays(a, m) && (b == m || StaleStaysBut(m, b, c.sid))
    ensures SignedIn(a, c, now) ==> StaleStays(a, b)
  {
    if SignedIn(a, c, now) && b != m {
      SignedInIsNotStale(a, c, now);
      StaleIsBut(a, m, c.sid);
      StaleButChain(a, m, b, c.sid);
      StaleButNone(a, b, c.sid);
    }
  }

  // ----------------------------------------------------------------- challenges

  /** The challenge exists, is meant for this, and is still good. */
  predicate Open(db: Db, id: string, binding: string, purpose: Purpose, pid: Option<string>, now: int) {
    && id in db.challenges
    && var c := db.challenges[id];
    c.purpose == purpose && c.binding == binding && c.pid == pid && !c.consumed && c.expires >= now
  }

  method NewChallenge(conn: Connection, id: string, purpose: Purpose, binding: string, pid: Option<string>,
        context: Context, code: Option<string>, now: int)
    returns (r: Result<string, AuthError>)
    requires Inv(conn.db) && conn.db.installed && id !in conn.db.drawn
    modifies conn
    ensures old(conn.Idle()) ==> conn.Idle()
    ensures r.Ok? <==> old(conn.Idle())
    ensures conn.db == if r.Err? then old(conn.db)
                       else PutChallenge(Sweep(old(conn.db), now - 86400), id,
                                         Challenge(purpose, binding, pid, context, code, 0, None, false,
                                                   now + CHALLENGE_TTL))
    ensures r.Ok? ==> r.value == id && Open(conn.db, id, binding, purpose, pid, now)
    ensures r.Ok? ==>
              && id in conn.db.challenges
              && conn.db.challenges[id] == Challenge(purpose, binding, pid, context, code, 0, None, false, now + 300)
              && forall i | i != id ::
                   i in conn.db.challenges <==>
                     i in old(conn.db).challenges && now - 86400 <= old(conn.db).challenges[i].expires
    ensures Inv(conn.db) && Evolves(old(conn.db), conn.db) && StaleStays(old(conn.db), conn.db)
  {
    EvolvesItself(conn.db);
    ghost var start := conn.db;
    assert ChallengesOk(conn.db.challenges, conn.db.drawn);
    hide Inv, Evolves, StaleStays;
    var ok := conn.Begin();
    if !ok {
      return Err(TransactionActive);
    }
    SweepKeeps(conn.db, now - 86400);
    conn.db := Sweep(conn.db, now - 86400);
    ghost var m := conn.db;
    var c := Challenge(purpose, binding, pid, context, code, 0, None, false, now + CHALLENGE_TTL);
    PutChallengeKeeps(conn.db, id, c);
    conn.db := PutChallenge(conn.db, id, c);
    EvolvesChain(start, m, conn.db);
    StaleChain(start, m, conn.db);
    conn.Commit();
    return Ok(id);
  }

  lemma ChallengeFacts(a: Db)
    requires Inv(a)
    ensures ChallengesOk(a.challenges, a.drawn)
  {
  }

  /** The challenge after one more code was tried: good codes verify it, the fifth bad
      one spends it. */
  function Tried(c: Challenge, good: bool, now: int): Challenge {
    c.(attempts := c.attempts + 1,
       verifiedAt := if good then Some(now) else None,
       expires := if good then now + TICKET_TTL else c.expires,
       consumed := !good && c.attempts >= MAX_ATTEMPTS - 1)
  }

  /** Six digits, or nothing. */
  function CodeOf(code: string): string {
    if |code| == 6 && forall i :: 0 <= i < 6 ==> IsDigit(code[i]) then code else ""
  }

  /** It was posed to this browser, for this purpose and this profile, has not been used
      and is not past its end. */
  ghost predicate Answerable(c: Challenge, binding: string, purpose: Purpose, pid: Option<string>, now: int) {
    c.binding == binding && c.purpose == purpose && c.pid == pid && !c.consumed && now <= c.expires
  }

  lemma OpenIsAnswerable(db: Db, id: string, binding: string, purpose: Purpose, pid: Option<string>, now: int)
    ensures Open(db, id, binding, purpose, pid, now) <==>
              id in db.challenges && Answerable(db.challenges[id], binding, purpose, pid, now)
  {
  }

  predicate SixDigits(code: string) {
    |code| == 6 && forall i :: 0 <= i < 6 ==> '0' <= code[i] <= '9'
  }

  /** No code has been found right yet, and fewer than five were tried. */
  ghost predicate Undecided(c: Challenge, binding: string, purpose: Purpose, pid: Option<string>, now: int) {
    Answerable(c, binding, purpose, pid, now) && c.verifiedAt.None? && c.attempts < 5
  }

  /** One more try: the right code is good for ten minutes, the fifth wrong one is the
      last. */
  ghost function OnceMore(c: Challenge, good: bool, now: int): Challenge {
    if good then c.(attempts := c.attempts + 1, verifiedAt := Some(now), expires := now + 600)
    else c.(attempts := c.attempts + 1, consumed := c.attempts == 4)
  }

  lemma JudgingFacts(a: Db, id: string, binding: string, purpose: Purpose, pid: Option<string>, good: bool, now: int)
    requires Inv(a)
    ensures Open(a, id, binding, purpose, pid, now) ==> id in a.challenges
    ensures id in a.challenges && Undecided(a.challenges[id], binding, purpose, pid, now) <==>
              && Open(a, id, binding, purpose, pid, now)
              && a.challenges[id].verifiedAt.None? && a.challenges[id].attempts < MAX_ATTEMPTS
    ensures id in a.challenges && Undecided(a.challenges[id], binding, purpose, pid, now) ==>
              && ChallengeFits(a, id, Tried(a.challenges[id], good, now))
              && Tried(a.challenges[id], good, now) == OnceMore(a.challenges[id], good, now)
              && PutChallenge(a, id, Tried(a.challenges[id], good, now))
                 == a.(challenges := a.challenges[id := OnceMore(a.challenges[id], good, now)])
  {
    ChallengeFacts(a);
    hide Inv;
    assert id in a.challenges ==> a.drawn + {id} == a.drawn;
  }

  /** Judges a code. A wrong one is remembered although the call fails; a challenge
      that was verified, or has used up its five tries, judges nothing more. */
  method VerifyGameCode(conn: Connection, id: string, binding: string, code: string, purpose: Purpose,
        pid: Option<string>, now: int)
    returns (r: Result<Context, AuthError>)
    requires Inv(conn.db) && conn.db.installed
    modifies conn
    ensures old(conn.Idle()) ==> conn.Idle()
    ensures var may := && old(conn.Idle()) && Open(old(conn.db), id, binding, purpose, pid, now)
                       && old(conn.db).challenges[id].verifiedAt.None?
                       && old(conn.db).challenges[id].attempts < MAX_ATTEMPTS;
            if !may then r.Err? && conn.db == old(conn.db)
            else
              var c := old(conn.db).challenges[id];
              && (r == if c.code == Some(CodeOf(code)) then Ok(c.context) else Err(VerificationFailed))
              && conn.db == PutChallenge(old(conn.db), id, Tried(c, r.Ok?, now))
    ensures r.Ok? || r == Err(VerificationFailed) <==>
              && old(conn.Idle()) && id in old(conn.db).challenges
              && Undecided(old(conn.db).challenges[id], binding, purpose, pid, now)
    ensures r.Ok? || r == Err(VerificationFailed) ==>
              var c := old(conn.db).challenges[id];
              && (r.Ok? <==> c.code == Some(if SixDigits(code) then code else ""))
              && conn.db == old(conn.db).(challenges := old(conn.db).challenges[id := OnceMore(c, r.Ok?, now)])
    ensures Inv(conn.db) && Evolves(old(conn.db), conn.db) && StaleStays(old(conn.db), conn.db)
  {
    SixDigitsOrNothing(code);
    EvolvesItself(conn.db);
    hide *;
    JudgingFacts(conn.db, id, binding, purpose, pid, true, now);
    JudgingFacts(conn.db, id, binding, purpose, pid, false, now);
    var ok := conn.Begin();
    if !ok {
      return Err(TransactionActive);
    }
    if !Open(conn.db, id, binding, purpose, pid, now) || conn.db.challenges[id].verifiedAt.Some?
       || conn.db.challenges[id].attempts >= MAX_ATTEMPTS {
      conn.Rollback();
      return Err(ChallengeExpired);
    }
    var c := conn.db.challenges[id];
    var good := c.code == Some(CodeOf(code));
    PutChallengeKeeps(conn.db, id, Tried(c, good, now));
    conn.db := PutChallenge(conn.db, id, Tried(c, good, now));
    conn.Commit();
    if !good {
      return Err(VerificationFailed);
    }
    return Ok(c.context);
  }

  lemma SixDigitsOrNothing(code: string)
    ensures CodeOf(code) == if SixDigits(code) then code else ""
  {
  }

  function Consumed(db: Db, id: string): Db
    requires id in db.challenges
  {
    PutChallenge(db, id, db.challenges[id].(consumed := true))
  }

  lemma ConsumedKeeps(a: Db, id: string)
    requires Inv(a) && a.installed && id in a.challenges
    ensures Inv(Consumed(a, id)) && Evolves(a, Consumed(a, id)) && StaleStays(a, Consumed(a, id))
  {
    assert ChallengesOk(a.challenges, a.drawn);
    hide Inv, Evolves, StaleStays;
    PutChallengeKeeps(a, id, a.challenges[id].(consumed := true));
  }

  /** A challenge marked as used. */
  function SpentIn(challenges: Challenges, id: string): Challenges {
    if id in challenges then challenges[id := challenges[id].(consumed := true)] else challenges
  }

  lemma ConsumedIs(a: Db, id: string)
    requires ChallengesOk(a.challenges, a.drawn)
    ensures id in a.challenges ==> Consumed(a, id) == a.(challenges := SpentIn(a.challenges, id))
  {
    assert id in a.challenges ==> a.drawn + {id} == a.drawn;
  }

  /** The challenge is marked as used, and nothing else has changed. */
  ghost predicate UsedUp(a: Db, b: Db, id: string) {
    && id in a.challenges
    && b == a.(challenges := a.challenges[id := a.challenges[id].(consumed := true)])
  }

  method ConsumeChallenge(conn: Connection, id: string, binding: string, purpose: Purpose, pid: Option<string>,
        now: int)
    returns (r: Result<Challenge, AuthError>)
    requires Inv(conn.db) && conn.db.installed
    modifies conn
    ensures old(conn.Idle()) ==> conn.Idle()
    ensures r.Ok? <==> old(conn.Idle()) && Open(old(conn.db), id, binding, purpose, pid, now)
    ensures r.Ok? ==>
              r.value == old(conn.db).challenges[id] && conn.db == Consumed(old(conn.db), id) && conn.Idle()
    ensures r.Ok? <==>
              && old(conn.Idle()) && id in old(conn.db).challenges
              && Answerable(old(conn.db).challenges[id], binding, purpose, pid, now)
    ensures r.Ok? ==> UsedUp(old(conn.db), conn.db, id)
    ensures r.Err? ==> conn.db == old(conn.db)
    ensures Inv(conn.db) && Evolves(old(conn.db), conn.db) && StaleStays(old(conn.db), conn.db)
  {
    EvolvesItself(conn.db);
    ChallengeFacts(conn.db);
    OpenIsAnswerable(conn.db, id, binding, purpose, pid, now);
    ConsumedIs(conn.db, id);
    assert id in conn.db.challenges ==> UsedUp(conn.db, Consumed(conn.db, id), id);
    hide Inv, Evolves, StaleStays, Open, ChallengesOk, Answerable, UsedUp;
    var ok := conn.Begin();
    if !ok {
      return Err(TransactionActive);
    }
    if !Open(conn.db, id, binding, purpose, pid, now) {
      conn.Rollback();
      return Err(ChallengeExpired);
    }
    var c := conn.db.challenges[id];
    ConsumedKeeps(conn.db, id);
    conn.db := Consumed(conn.db, id);
    conn.Commit();
    return Ok(c);
  }

  /** A game code was verified at most ten minutes ago and has not been used. */
  predicate TicketReady(db: Db, id: string, binding: string, purpose: Purpose, pid: Option<string>, now: int) {
    && Open(db, id, binding, purpose, pid, now)
    && db.challenges[id].verifiedAt.Some? && 0 <= now - db.challenges[id].verifiedAt.value <= TICKET_TTL
  }

  /** Besides, the right code was given within the last ten minutes. */
  ghost predicate Redeemable(c: Challenge, binding: string, purpose: Purpose, pid: Option<string>, now: int) {
    && Answerable(c, binding, purpose, pid, now)
    && c.verifiedAt.Some? && 0 <= now - c.verifiedAt.value <= 600
  }

  lemma ReadyIsRedeemable(db: Db, id: string, binding: string, purpose: Purpose, pid: Option<string>, now: int)
    ensures TicketReady(db, id, binding, purpose, pid, now) <==>
              id in db.challenges && Redeemable(db.challenges[id], binding, purpose, pid, now)
  {
    OpenIsAnswerable(db, id, binding, purpose, pid, now);
    hide Open, Answerable;
  }

  // ---------------------------------------------------------- passkey registration

  /** The new passkey, and the one session that goes on under a new token. */
  function Registered(db: Db, c: Current, key: string, token: string): Db
    requires c.sid in db.sessions
  {
    PutSession(SignOut(PutPasskey(db, key, Passkey(c.pid, false)), OthersOf(db.sessions, c.pid, c.sid)), c.sid,
               db.sessions[c.sid].(token := token))
  }

  lemma RegisteredKeeps(a: Db, c: Current, key: string, token: string, now: int)
    requires Inv(a) && Recent(a, c.pid, c, now) && token !in a.drawn
    requires key !in a.passkeys && |ActiveKeys(a.passkeys, c.pid)| < 8
    ensures var b := Registered(a, c, key, token); Inv(b) && Evolves(a, b) && StaleStays(a, b)
  {
    RecentFacts(a, c, now);
    var m := PutPasskey(a, key, Passkey(c.pid, false));
    var n := SignOut(m, OthersOf(a.sessions, c.pid, c.sid));
    var s := a.sessions[c.sid].(token := token);
    assert SessionFits(n, c.sid, s) by { assert CredentialsHold(a); }
    hide Inv, Evolves, StaleStays, StaleStaysBut, SessionFits, Recent, OthersOf, ActiveKeys;
    AddPasskeyKeeps(a, key, Passkey(c.pid, false));
    SignOutKeeps(m, OthersOf(a.sessions, c.pid, c.sid));
    PutSessionKeeps(n, c.sid, s);
    ChainThree(a, m, n, Registered(a, c, key, token));
    RegisteredStale(a, c, key, token);
  }

  lemma RegisteredStale(a: Db, c: Current, key: string, token: string)
    requires c.sid in a.sessions
    ensures StaleStays(a, Registered(a, c, key, token))
  {
    hide StaleStays;
    var b := Registered(a, c, key, token);
    assert b.bindings == a.bindings;
    forall i | i in a.sessions ensures i in b.sessions && SameMark(a.sessions[i], b.sessions[i]) {
    }
    hide Registered;
    SameMarks(a, b);
  }

  lemma RegisteredLeaves(a: Db, c: Current, key: string, token: string, now: int)
    requires Inv(a) && Recent(a, c.pid, c, now) && token !in a.drawn
    ensures OnlySession(Registered(a, c, key, token), c.pid, c.sid, c.token, token)
  {
    assert TokensOk(a.sessions, a.drawn);
    var s := a.sessions[c.sid].(token := token);
    assert Registered(a, c, key, token).sessions
      == RevokedIn(a.sessions, OthersOf(a.sessions, c.pid, c.sid))[c.sid := s];
    hide Inv, RevokedIn, OthersOf, Registered, TokensOk;
    OneLeft(a, c.pid, c.sid, s);
  }

  lemma StillRecent(a: Db, c: Current, id: string, now: int)
    requires Recent(a, c.pid, c, now) && id in a.challenges
    ensures Recent(Consumed(a, id), c.pid, c, now) && Consumed(a, id).passkeys == a.passkeys
  {
  }

  /** The session was proved to be its owner's within ten minutes, and the challenge was
      posed to it for a registration, has not been used and is not past its end. */
  ghost predicate RegistrationOpen(db: Db, c: Current, binding: string, id: string, now: int) {
    && Proved(db, c, now) && id in db.challenges
    && Answerable(db.challenges[id], binding, PasskeyRegister, Some(c.pid), now)
  }

  /** It was this session that began, the passkey is nobody's, and the profile has fewer
      than eight. */
  ghost predicate RegistrationGood(db: Db, c: Current, binding: string, id: string, key: Option<string>, now: int) {
    && RegistrationOpen(db, c, binding, id, now) && db.challenges[id].context.sid == c.sid
    && key.Some? && key.value !in db.passkeys
    && |set k | k in db.passkeys && db.passkeys[k] == Passkey(c.pid, false)| < 8
  }

  /** What an attempt that fails leaves: a challenge that was open is spent by it. */
  ghost predicate AttemptLeft(a: Db, b: Db, c: Current, binding: string, id: string, now: int) {
    b == if RegistrationOpen(a, c, binding, id, now) then a.(challenges := SpentIn(a.challenges, id)) else a
  }

  /** The challenge was spent on the passkey. */
  ghost predicate KeyStored(a: Db, b: Db, c: Current, id: string, key: string, token: string) {
    && id in a.challenges && c.sid in Consumed(a, id).sessions
    && b == Registered(Consumed(a, id), c, key, token)
  }

  lemma StoredFromSpent(a: Db, b: Db, c: Current, id: string, key: string, token: string, now: int)
    requires Inv(a) && Recent(a, c.pid, c, now) && id in a.challenges && c.sid in Consumed(a, id).sessions
    requires b == Registered(Consumed(a, id), c, key, token)
    ensures KeyStored(a, b, c, id, key, token) && KeyRegistered(a, b, c, id, key, token)
  {
    hide *;
    RegisteredChanges(a, c, id, key, token, now);
    StoredIs(a, b, c, id, key, token);
  }

  lemma StoredIs(a: Db, b: Db, c: Current, id: string, key: string, token: string)
    ensures KeyStored(a, b, c, id, key, token) <==>
              && id in a.challenges && c.sid in Consumed(a, id).sessions
              && b == Registered(Consumed(a, id), c, key, token)
  {
    hide Consumed, Registered;
  }

  lemma AttemptCosts(a: Db, c: Current, binding: string, id: string, now: int)
    requires Inv(a)
    ensures if Recent(a, c.pid, c, now) && Open(a, id, binding, PasskeyRegister, Some(c.pid), now)
            then id in a.challenges && AttemptLeft(a, Consumed(a, id), c, binding, id, now)
            else AttemptLeft(a, a, c, binding, id, now)
  {
    ChallengeFacts(a);
    ConsumedIs(a, id);
    RegistrationCases(a, c, binding, id, None, now);
    hide Inv, Recent, Open, Consumed, ChallengesOk, SpentIn, RegistrationGood;
  }

  lemma RegistrationCases(db: Db, c: Current, binding: string, id: string, key: Option<string>, now: int)
    requires Inv(db)
    ensures RegistrationOpen(db, c, binding, id, now) <==>
              Recent(db, c.pid, c, now) && Open(db, id, binding, PasskeyRegister, Some(c.pid), now)
    ensures RegistrationGood(db, c, binding, id, key, now) <==>
              && RegistrationOpen(db, c, binding, id, now) && id in db.challenges
              && db.challenges[id].context.sid == c.sid && key.Some? && key.value !in db.passkeys
              && |ActiveKeys(db.passkeys, c.pid)| < 8
  {
    RecentIsProved(db, c, now);
    OpenIsAnswerable(db, id, binding, PasskeyRegister, Some(c.pid), now);
    assert ActiveKeys(db.passkeys, c.pid) == set k | k in db.passkeys && db.passkeys[k] == Passkey(c.pid, false);
    hide Inv, Recent, Proved, ActiveKeys, Open, Answerable;
  }

  /** What a registration changes: the passkey; the challenge, which is spent; this
      session, under a new token; and every other session of the profile, which ends. */
  ghost predicate KeyRegistered(a: Db, b: Db, c: Current, id: string, key: string, token: string) {
    && b == a.(passkeys := a.passkeys[key := Passkey(c.pid, false)], challenges := SpentIn(a.challenges, id),
               sessions := b.sessions, drawn := a.drawn + {token})
    && b.sessions.Keys == a.sessions.Keys && c.sid in a.sessions
    && b.sessions[c.sid] == a.sessions[c.sid].(token := token)
    && forall i :: i in a.sessions && i != c.sid ==>
         b.sessions[i] == if a.sessions[i].pid == c.pid then a.sessions[i].(revoked := true) else a.sessions[i]
  }

  lemma RegisteredChanges(a: Db, c: Current, id: string, key: string, token: string, now: int)
    requires Inv(a) && Recent(a, c.pid, c, now) && id in a.challenges
    ensures KeyRegistered(a, Registered(Consumed(a, id), c, key, token), c, id, key, token)
  {
    RecentFacts(a, c, now);
    ChallengeFacts(a);
    ConsumedIs(a, id);
    hide Inv, Recent, Consumed, ChallengesOk, SpentIn;
    assert a.drawn + {c.sid, token} == a.drawn + {token};
    forall i | i in a.sessions && i != c.sid
      ensures i in OthersOf(a.sessions, c.pid, c.sid) <==> a.sessions[i].pid == c.pid && !a.sessions[i].revoked
    {
    }
    hide OthersOf;
  }

  /** What comes of an attempt to register a passkey: it is stored, and the one session
      goes on, exactly when everything is in order; otherwise only the challenge goes,
      if it was open. */
  ghost predicate RegistrationEnds(a: Db, b: Db, r: Result<string, AuthError>, c: Current, binding: string,
        id: string, key: Option<string>, token: string, now: int) {
    && (r.Ok? <==> RegistrationGood(a, c, binding, id, key, now))
    && (if r.Ok? then
          && r.value == token && key.Some? && KeyStored(a, b, c, id, key.value, token)
          && KeyRegistered(a, b, c, id, key.value, token) && OnlySession(b, c.pid, c.sid, c.token, token)
        else AttemptLeft(a, b, c, binding, id, now))
  }

  /** No attempt at all. */
  lemma NotAttempted(a: Db, e: AuthError, c: Current, binding: string, id: string, key: Option<string>, token: string,
        now: int)
    requires Inv(a) && !(Recent(a, c.pid, c, now) && Open(a, id, binding, PasskeyRegister, Some(c.pid), now))
    ensures RegistrationEnds(a, a, Err(e), c, binding, id, key, token, now)
  {
    RegistrationCases(a, c, binding, id, key, now);
    AttemptCosts(a, c, binding, id, now);
    hide Inv, Recent, Open, RegistrationOpen, RegistrationGood, AttemptLeft;
  }

  /** Finishes a registration that this very session began. The challenge is spent by
      the attempt whatever its outcome; `key` is the credential the authenticator
      proved, if it proved one. */
  method FinishRegistration(conn: Connection, c: Current, binding: string, id: string, key: Option<string>,
        token: string, now: int)
    returns (r: Result<string, AuthError>)
    requires Inv(conn.db) && conn.db.installed && token !in conn.db.drawn
    modifies conn
    ensures old(conn.Idle()) ==>
              && conn.Idle()
              && RegistrationEnds(old(conn.db), conn.db, r, c, binding, id, key, token, now)
    ensures !old(conn.Idle()) ==> r.Err? && conn.db == old(conn.db)
    ensures Inv(conn.db) && Evolves(old(conn.db), conn.db) && StaleStays(old(conn.db), conn.db)
  {
    ghost var start := conn.db;
    hide *;
    EvolvesItself(conn.db);
    if !Recent(conn.db, c.pid, c, now) {
      NotAttempted(start, Reauthenticate, c, binding, id, key, token, now);
      return Err(Reauthenticate);
    }
    var consumed := ConsumeChallenge(conn, id, binding, PasskeyRegister, Some(c.pid), now);
    if consumed.Err? {
      if !Open(start, id, binding, PasskeyRegister, Some(c.pid), now) {
        NotAttempted(start, consumed.error, c, binding, id, key, token, now);
      }
      return Err(consumed.error);
    }
    var b;
    r, b := AfterAttempt(start, conn.db, consumed.value, c, binding, id, key, token, now);
    conn.db := b;
  }

  /** What comes of it once the attempt has spent the challenge. */
  method AfterAttempt(ghost start: Db, db: Db, row: Challenge, c: Current, binding: string, id: string,
        key: Option<string>, token: string, now: int)
    returns (r: Result<string, AuthError>, b: Db)
    requires Inv(start) && start.installed && token !in start.drawn && Recent(start, c.pid, c, now)
    requires Open(start, id, binding, PasskeyRegister, Some(c.pid), now) && id in start.challenges
    requires row == start.challenges[id] && db == Consumed(start, id)
    requires Inv(db) && Evolves(start, db) && StaleStays(start, db)
    ensures RegistrationEnds(start, b, r, c, binding, id, key, token, now)
    ensures Inv(b) && Evolves(start, b) && StaleStays(start, b)
  {
    hide *;
    RegistrationCases(start, c, binding, id, key, now);
    AttemptCosts(start, c, binding, id, now);
    ChallengeFacts(start);
    StillRecent(start, c, id, now);
    ConsumedDrawn(start, id);
    var stored := StorePasskey(db, row, c, key, token, now);
    if stored.Err? {
      r, b := Err(stored.error), db;
      AttemptFailed(start, db, stored.error, c, binding, id, key, token, now);
      return;
    }
    r, b := Ok(token), stored.value;
    StoredFromSpent(start, b, c, id, key.value, token, now);
    AttemptWorked(start, b, c, binding, id, key, token, now);
    EvolvesChain(start, db, b);
    StaleChain(start, db, b);
  }

  lemma AttemptFailed(a: Db, b: Db, e: AuthError, c: Current, binding: string, id: string, key: Option<string>,
        token: string, now: int)
    requires !RegistrationGood(a, c, binding, id, key, now) && AttemptLeft(a, b, c, binding, id, now)
    ensures RegistrationEnds(a, b, Err(e), c, binding, id, key, token, now)
  {
    hide RegistrationGood, AttemptLeft;
  }

  lemma AttemptWorked(a: Db, b: Db, c: Current, binding: string, id: string, key: Option<string>, token: string,
        now: int)
    requires RegistrationGood(a, c, binding, id, key, now) && key.Some? && KeyStored(a, b, c, id, key.value, token)
    requires KeyRegistered(a, b, c, id, key.value, token) && OnlySession(b, c.pid, c.sid, c.token, token)
    ensures RegistrationEnds(a, b, Ok(token), c, binding, id, key, token, now)
  {
    hide RegistrationGood, KeyStored, KeyRegistered, OnlySession;
  }

  /** The write behind a registration, for a challenge that was spent on it. */
  method StorePasskey(db: Db, row: Challenge, c: Current, key: Option<string>, token: string, now: int)
    returns (r: Result<Db, AuthError>)
    requires Inv(db) && Recent(db, c.pid, c, now) && token !in db.drawn
    ensures r.Ok? <==> && row.context.sid == c.sid && key.Some? && key.value !in db.passkeys
                       && |ActiveKeys(db.passkeys, c.pid)| < 8
    ensures r.Ok? ==>
              && c.sid in db.sessions && r.value == Registered(db, c, key.value, token)
              && Inv(r.value) && Evolves(db, r.value) && StaleStays(db, r.value)
              && OnlySession(r.value, c.pid, c.sid, c.token, token)
  {
    hide *;
    RecentIsOwn(db, c, now);
    if row.context.sid != c.sid {
      return Err(ChallengeExpired);
    }
    if key.None? {
      return Err(PasskeyFailed);
    }
    if |ActiveKeys(db.passkeys, c.pid)| >= 8 {
      return Err(PasskeyLimit);
    }
    if key.value in db.passkeys {
      return Err(PasskeyRegistered);
    }
    RegisteredKeeps(db, c, key.value, token, now);
    RegisteredLeaves(db, c, key.value, token, now);
    return Ok(Registered(db, c, key.value, token));
  }

  // ------------------------------------------------------------- linking by code

  /** The account comes back under a binding it had, link and all. */
  function TakenBack(db: Db, k: Key, now: int): Db
    requires k in db.bindings && (db.bindings[k].legacy.Some? ==> db.bindings[k].legacy.value in db.links)
  {
    var b := db.bindings[k];
    db.(links := match b.legacy
                 case None => db.links
                 case Some(l) => db.links[l := db.links[l].(revokedAt := None, linkedAt := now)],
        bindings := db.bindings[k := b.(revokedAt := None, linkedAt := now, version := b.version + 1)],
        owners := Recorded(db.owners, k))
  }

  /** The account is new here; version 1 is left to sessions older than the tables. */
  function TakenOn(db: Db, k: Key, now: int): Db {
    db.(bindings := db.bindings[k := Binding(None, now, None, 2)], owners := Recorded(db.owners, k))
  }

  /** Ownership is recorded once. */
  function Recorded(owners: Owners, k: Key): Owners {
    if k.aid in owners then owners else owners[k.aid := Some(k.pid)]
  }

  /** The link that a binding names, if it names one, exists. */
  predicate LinkKnown(db: Db, k: Key) {
    k in db.bindings && db.bindings[k].legacy.Some? ==> db.bindings[k].legacy.value in db.links
  }

  function Taken(db: Db, k: Key, now: int): Db
    requires LinkKnown(db, k)
  {
    if k in db.bindings then TakenBack(db, k, now) else TakenOn(db, k, now)
  }

  /** The account is nobody else's, and is not already linked. */
  predicate MayTake(db: Db, k: Key) {
    && (k.aid in db.owners ==> db.owners[k.aid] == Some(k.pid))
    && (if k in db.bindings then !Active(db.bindings[k])
        else k.aid > 0 && forall l :: l in db.links ==> db.links[l].aid != k.aid)
  }

  lemma TakenBackMirrors(a: Db, k: Key, now: int)
    requires Mirror(a.links, a.profiles, a.bindings) && UniqueLegacy(a.profiles) && k in a.bindings
    ensures a.bindings[k].legacy.Some? ==> a.bindings[k].legacy.value in a.links
    ensures var b := TakenBack(a, k, now); Mirror(b.links, b.profiles, b.bindings)
  {
    BothSidesMirror(a, k, now, None, a.bindings[k].version + 1);
    hide Mirror, UniqueLegacy;
  }

  lemma TakenOnMirrors(a: Db, k: Key, now: int)
    requires Mirror(a.links, a.profiles, a.bindings) && k !in a.bindings
    ensures var b := TakenOn(a, k, now); Mirror(b.links, b.profiles, b.bindings)
  {
    var b := TakenOn(a, k, now);
    forall l | l in b.links ensures exists p :: MirroredBy(b.links, b.bindings, l, p) {
      var p :| MirroredBy(a.links, a.bindings, l, p);
      assert MirroredBy(b.links, b.bindings, l, p);
    }
  }

  lemma TakenMirrors(a: Db, k: Key, now: int)
    requires Mirror(a.links, a.profiles, a.bindings) && UniqueLegacy(a.profiles)
    ensures LinkKnown(a, k)
    ensures var b := Taken(a, k, now); Mirror(b.links, b.profiles, b.bindings)
  {
    hide Mirror, UniqueLegacy, TakenBack, TakenOn;
    if k in a.bindings {
      TakenBackMirrors(a, k, now);
    } else {
      TakenOnMirrors(a, k, now);
    }
  }

  /** One account is held that was not, with its owner on record; nothing else. */
  ghost predicate TakesOne(a: Db, b: Db, k: Key) {
    && b == a.(links := b.links, bindings := b.bindings, owners := b.owners)
    && k in b.bindings && b.bindings == a.bindings[k := b.bindings[k]] && Active(b.bindings[k])
    && (k in a.bindings ==>
          b.bindings[k].legacy == a.bindings[k].legacy && a.bindings[k].version < b.bindings[k].version)
    && (forall n :: n in a.owners ==> n in b.owners && b.owners[n] == a.owners[n])
    && k.aid in b.owners && b.owners[k.aid] == Some(k.pid)
  }

  lemma TakenShape(a: Db, k: Key, now: int)
    requires LinkKnown(a, k) && MayTake(a, k)
    ensures TakesOne(a, Taken(a, k, now), k)
  {
    if k in a.bindings {
      assert Taken(a, k, now) == TakenBack(a, k, now);
    } else {
      assert Taken(a, k, now) == TakenOn(a, k, now);
    }
  }

  lemma TakesReferences(a: Db, b: Db, k: Key)
    requires References(a) && TakesOne(a, b, k) && k.pid in a.profiles && (k !in a.bindings ==> k.aid > 0)
    ensures References(b)
  {
    hide TakesOne;
    assert b.bindings == a.bindings[k := b.bindings[k]] by { TakesBindings(a, b, k); }
    TakesBindings(a, b, k);
  }

  lemma TakesBindings(a: Db, b: Db, k: Key)
    requires TakesOne(a, b, k)
    ensures k in b.bindings && b.bindings == a.bindings[k := b.bindings[k]]
    ensures b == a.(links := b.links, bindings := b.bindings, owners := b.owners)
  {
  }

  lemma TakenKeeps(a: Db, k: Key, now: int)
    requires Inv(a) && a.installed && k.pid in a.profiles && MayTake(a, k)
    ensures LinkKnown(a, k)
    ensures var b := Taken(a, k, now); Inv(b) && Evolves(a, b) && StaleStays(a, b) && TakesOne(a, b, k)
  {
    assert Mirror(a.links, a.profiles, a.bindings) && UniqueLegacy(a.profiles);
    assert References(a) && OwnersHold(a.bindings, a.owners) && ProvidersOk(a.providers, a.profiles);
    hide Inv, Mirror, UniqueLegacy, ProvidersOk, Evolves, StaleStays, OwnersHold, VersionsRise, References,
          UniqueActive, Mirrors, MirroredBy;
    TakenMirrors(a, k, now);
    TakenShape(a, k, now);
    var b := Taken(a, k, now);
    TakesReferences(a, b, k);
    hide Taken, MayTake, LinkKnown;
    OneBindingHolds(a.bindings, a.owners, b.owners, k, b.bindings[k]);
    OneBindingRises(a.bindings, k, b.bindings[k]);
    LinkTablesOnly(a, b);
  }

  /** The session that had no account moves to this one. */
  function AndMoved(db: Db, c: Current, aid: int): Db
    requires c.sid in db.sessions && (aid != 0 ==> Key(db.sessions[c.sid].pid, aid) in db.bindings)
  {
    if c.aid == 0 then Repointed(db, c.sid, aid) else db
  }

  lemma AndMovedKeeps(a: Db, c: Current, aid: int)
    requires Inv(a) && c.sid in a.sessions && (aid != 0 ==> Key(a.sessions[c.sid].pid, aid) in a.bindings)
    ensures var b := AndMoved(a, c, aid);
            && Inv(b) && Evolves(a, b) && (b == a || StaleStaysBut(a, b, c.sid))
            && b.bindings == a.bindings && b.owners == a.owners && b.challenges == a.challenges
            && b.installed == a.installed
  {
    hide Inv, Evolves, StaleStaysBut;
    if c.aid == 0 {
      RepointedKeeps(a, c.sid, aid);
    } else {
      EvolvesItself(a);
    }
  }

  /** The account and, if the session had none, the session on it. */
  function Joined(db: Db, c: Current, aid: int, id: string, now: int): Db
    requires LinkKnown(db, Key(c.pid, aid))
    requires id in db.challenges && c.sid in db.sessions && db.sessions[c.sid].pid == c.pid
  {
    Consumed(AndMoved(Taken(db, Key(c.pid, aid), now), c, aid), id)
  }

  lemma JoinedKeeps(a: Db, c: Current, aid: int, id: string, now: int)
    requires Inv(a) && Recent(a, c.pid, c, now) && MayTake(a, Key(c.pid, aid)) && id in a.challenges
    ensures LinkKnown(a, Key(c.pid, aid)) && c.sid in a.sessions && a.sessions[c.sid].pid == c.pid
    ensures var b := Joined(a, c, aid, id, now);
            && Inv(b) && Evolves(a, b) && (SignedIn(a, c, now) ==> StaleStays(a, b))
            && Key(c.pid, aid) in b.bindings && Active(b.bindings[Key(c.pid, aid)])
            && aid in b.owners && b.owners[aid] == Some(c.pid) && id in b.challenges && b.challenges[id].consumed
  {
    RecentFacts(a, c, now);
    RecentIsOwn(a, c, now);
    hide Inv, Evolves, StaleStays, StaleStaysBut, Recent, SignedIn, MayTake, Taken, AndMoved, LinkKnown, Active;
    TakenKeeps(a, Key(c.pid, aid), now);
    var m := Taken(a, Key(c.pid, aid), now);
    AndMovedKeeps(m, c, aid);
    var n := AndMoved(m, c, aid);
    ActorMayMove(a, m, n, c, now);
    ConsumedKeeps(n, id);
    ChainThree(a, m, n, Consumed(n, id));
    if SignedIn(a, c, now) {
      StaleChain(a, n, Consumed(n, id));
    }
  }

  /** What linking an account changes: the binding, which is new or comes back with the
      link it mirrors; its owner, on record; the session that asked, if it had no
      account; and the challenge, which is spent. */
  ghost predicate AccountTaken(a: Db, b: Db, c: Current, aid: int, id: string, now: int) {
    var k := Key(c.pid, aid);
    && TakenAs(a, b.(sessions := a.sessions, challenges := a.challenges), k, now)
    && k in b.bindings && c.sid in a.sessions && b.challenges == SpentIn(a.challenges, id)
    && b.sessions == if c.aid == 0 then a.sessions[c.sid := a.sessions[c.sid].(aid := aid, lv := b.bindings[k].version)]
                     else a.sessions
  }

  /** The account is taken: its binding, the link it mirrors and its owner. */
  ghost predicate TakenAs(a: Db, b: Db, k: Key, now: int) {
    && b == a.(links := b.links, bindings := b.bindings, owners := a.owners[k.aid := Some(k.pid)])
    && b.bindings == a.bindings[k :=
         if k in a.bindings
         then a.bindings[k].(revokedAt := None, linkedAt := now, version := a.bindings[k].version + 1)
         else Binding(None, now, None, 2)]
    && (if k in a.bindings && a.bindings[k].legacy.Some?
        then
          var l := a.bindings[k].legacy.value;
          l in a.links && b.links == a.links[l := a.links[l].(revokedAt := None, linkedAt := now)]
        else b.links == a.links)
  }

  lemma RecordedIs(owners: Owners, k: Key)
    requires k.aid in owners ==> owners[k.aid] == Some(k.pid)
    ensures Recorded(owners, k) == owners[k.aid := Some(k.pid)]
  {
  }

  lemma TakenBackChanges(a: Db, k: Key, now: int)
    requires k in a.bindings && (a.bindings[k].legacy.Some? ==> a.bindings[k].legacy.value in a.links)
    requires k.aid in a.owners ==> a.owners[k.aid] == Some(k.pid)
    ensures TakenAs(a, TakenBack(a, k, now), k, now)
  {
    RecordedIs(a.owners, k);
    hide Recorded;
  }

  lemma TakenOnChanges(a: Db, k: Key, now: int)
    requires k !in a.bindings && (k.aid in a.owners ==> a.owners[k.aid] == Some(k.pid))
    ensures TakenAs(a, TakenOn(a, k, now), k, now)
  {
    RecordedIs(a.owners, k);
    hide Recorded;
  }

  lemma TakenChanges(a: Db, k: Key, now: int)
    requires LinkKnown(a, k) && MayTake(a, k)
    ensures TakenAs(a, Taken(a, k, now), k, now)
  {
    hide TakenAs, TakenBack, TakenOn;
    if k in a.bindings {
      TakenBackChanges(a, k, now);
    } else {
      TakenOnChanges(a, k, now);
    }
  }

  lemma MovedChanges(a: Db, c: Current, aid: int)
    requires c.sid in a.sessions && a.sessions[c.sid].pid == c.pid && Key(c.pid, aid) in a.bindings && aid != 0
    requires c.sid in a.drawn && a.sessions[c.sid].token in a.drawn
    ensures AndMoved(a, c, aid) == a.(sessions :=
              if c.aid == 0
              then a.sessions[c.sid := a.sessions[c.sid].(aid := aid, lv := a.bindings[Key(c.pid, aid)].version)]
              else a.sessions)
  {
    assert a.drawn + {c.sid, a.sessions[c.sid].token} == a.drawn;
  }

  lemma TakenMeans(a: Db, b: Db, k: Key, now: int)
    requires TakenAs(a, b, k, now)
    ensures k in b.bindings && b.sessions == a.sessions && b.challenges == a.challenges && b.drawn == a.drawn
  {
  }

  lemma WhatJoins(a: Db, c: Current, aid: int, now: int)
    requires Inv(a) && Recent(a, c.pid, c, now) && MayTake(a, Key(c.pid, aid))
    ensures aid > 0 && c.sid in a.drawn && a.sessions[c.sid].token in a.drawn && ChallengesOk(a.challenges, a.drawn)
  {
    RecentFacts(a, c, now);
    ChallengeFacts(a);
    SessionFacts(a);
    hide Inv, Recent, ChallengesOk;
  }

  lemma JoinedChanges(a: Db, c: Current, aid: int, id: string, now: int)
    requires Inv(a) && Recent(a, c.pid, c, now) && MayTake(a, Key(c.pid, aid)) && id in a.challenges
    requires LinkKnown(a, Key(c.pid, aid)) && c.sid in a.sessions && a.sessions[c.sid].pid == c.pid
    ensures AccountTaken(a, Joined(a, c, aid, id, now), c, aid, id, now)
  {
    var k := Key(c.pid, aid);
    WhatJoins(a, c, aid, now);
    hide Inv, Recent, Taken, MayTake, LinkKnown, AndMoved, Consumed, ChallengesOk, SpentIn, TakenAs;
    TakenChanges(a, k, now);
    var m := Taken(a, k, now);
    TakenMeans(a, m, k, now);
    MovedChanges(m, c, aid);
    var n := AndMoved(m, c, aid);
    ConsumedIs(n, id);
    JoinedIs(a, m, n, Consumed(n, id), c, aid, id, now);
  }

  lemma JoinedIs(a: Db, m: Db, n: Db, b: Db, c: Current, aid: int, id: string, now: int)
    requires TakenAs(a, m, Key(c.pid, aid), now) && Key(c.pid, aid) in m.bindings && m.sessions == a.sessions
    requires m.challenges == a.challenges && c.sid in a.sessions
    requires n == m.(sessions := if c.aid == 0
                                 then a.sessions[c.sid := a.sessions[c.sid].(
                                   aid := aid, lv := m.bindings[Key(c.pid, aid)].version)]
                                 else a.sessions)
    requires b == n.(challenges := SpentIn(a.challenges, id))
    ensures AccountTaken(a, b, c, aid, id, now)
  {
    hide TakenAs, SpentIn;
    assert b.(sessions := a.sessions, challenges := a.challenges) == m;
  }

  /** Why an account cannot be linked, in the order the checks and constraints come. */
  method TakeRefused(db: Db, k: Key) returns (r: Option<AuthError>)
    ensures r.None? <==> MayTake(db, k)
  {
    if k.aid in db.owners && db.owners[k.aid] != Some(k.pid) {
      return Some(ExistingAccountSignIn);
    }
    if k in db.bindings {
      return if Active(db.bindings[k]) then Some(AccountAlreadyLinked) else None;
    }
    if exists l :: l in db.links && db.links[l].aid == k.aid {
      return Some(ExistingAccountSignIn);
    }
    return if k.aid <= 0 then Some(StorageRefused) else None;
  }

  /** The account is nobody else's on record and not held now; and either the profile
      held it before, or no link anywhere names it. */
  ghost predicate FreeFor(db: Db, pid: string, aid: int) {
    && (aid in db.owners ==> db.owners[aid] == Some(pid))
    && (if Key(pid, aid) in db.bindings then db.bindings[Key(pid, aid)].revokedAt.Some?
        else aid > 0 && forall l :: l in db.links ==> db.links[l].aid != aid)
  }

  lemma TakingIsFree(db: Db, k: Key)
    ensures MayTake(db, k) <==> FreeFor(db, k.pid, k.aid)
  {
  }

  /** Links the account that a verified game code stands for. The ticket is spent with
      it, so it links one account once. */
  method LinkVerifiedGame(conn: Connection, c: Current, id: string, binding: string, now: int)
    returns (r: Result<(), AuthError>)
    requires Inv(conn.db)
    modifies conn
    ensures old(conn.Idle()) ==> conn.Idle()
    ensures r.Ok? <==> && old(conn.Idle()) && Recent(old(conn.db), c.pid, c, now)
                       && TicketReady(old(conn.db), id, binding, GameLink, Some(c.pid), now)
                       && MayTake(old(conn.db), Key(c.pid, old(conn.db).challenges[id].context.aid))
    ensures r.Err? ==> conn.db == old(conn.db)
    ensures r.Ok? ==>
              var aid := old(conn.db).challenges[id].context.aid;
              var k := Key(c.pid, aid);
              && LinkKnown(old(conn.db), k)
              && c.sid in old(conn.db).sessions && old(conn.db).sessions[c.sid].pid == c.pid
              && conn.db == Joined(old(conn.db), c, aid, id, now)
              && k in conn.db.bindings && Active(conn.db.bindings[k]) && aid in conn.db.owners
              && conn.db.owners[aid] == Some(c.pid)
    ensures r.Ok? <==>
              && old(conn.Idle()) && Proved(old(conn.db), c, now) && id in old(conn.db).challenges
              && Redeemable(old(conn.db).challenges[id], binding, GameLink, Some(c.pid), now)
              && FreeFor(old(conn.db), c.pid, old(conn.db).challenges[id].context.aid)
    ensures r.Ok? ==>
              AccountTaken(old(conn.db), conn.db, c, old(conn.db).challenges[id].context.aid, id, now)
    ensures Inv(conn.db) && Evolves(old(conn.db), conn.db)
    ensures SignedIn(old(conn.db), c, now) ==> StaleStays(old(conn.db), conn.db)
  {
    EvolvesItself(conn.db);
    hide *;
    RecentIsProved(conn.db, c, now);
    ReadyIsRedeemable(conn.db, id, binding, GameLink, Some(c.pid), now);
    if id in conn.db.challenges {
      TakingIsFree(conn.db, Key(c.pid, conn.db.challenges[id].context.aid));
    }
    var ok := conn.Begin();
    if !ok {
      return Err(TransactionActive);
    }
    if !Recent(conn.db, c.pid, c, now) {
      conn.Rollback();
      return Err(Reauthenticate);
    }
    RecentIsOwn(conn.db, c, now);
    if !TicketReady(conn.db, id, binding, GameLink, Some(c.pid), now) {
      conn.Rollback();
      return Err(VerificationRequired);
    }
    ReadyIsKnown(conn.db, id, binding, GameLink, Some(c.pid), now);
    var k := Key(c.pid, conn.db.challenges[id].context.aid);
    var refused := TakeRefused(conn.db, k);
    if refused.Some? {
      conn.Rollback();
      return Err(refused.value);
    }
    JoinedKeeps(conn.db, c, k.aid, id, now);
    JoinedChanges(conn.db, c, k.aid, id, now);
    conn.db := Joined(conn.db, c, k.aid, id, now);
    conn.Commit();
    return Ok(());
  }

  lemma ReadyIsKnown(db: Db, id: string, binding: string, purpose: Purpose, pid: Option<string>, now: int)
    requires TicketReady(db, id, binding, purpose, pid, now)
    ensures id in db.challenges && !db.challenges[id].consumed && db.challenges[id].verifiedAt.Some?
  {
  }

  // ------------------------------------------------------- a profile from a code

  function WithProfile(db: Db, pid: string): Db {
    db.(profiles := db.profiles[pid := Profile(None, false)])
  }

  lemma WithProfileMirrors(a: Db, pid: string)
    requires Mirror(a.links, a.profiles, a.bindings) && pid !in a.profiles
    ensures Mirror(a.links, WithProfile(a, pid).profiles, a.bindings)
  {
    forall k | k in a.bindings ensures Mirrors(a.links, WithProfile(a, pid).profiles, k, a.bindings[k]) {
      assert Mirrors(a.links, a.profiles, k, a.bindings[k]);
    }
  }

  lemma WithProfileTables(a: Db, pid: string)
    requires Inv(a) && pid !in a.profiles
    ensures var b := WithProfile(a, pid);
            && UniqueLegacy(b.profiles) && Mirror(b.links, b.profiles, b.bindings)
            && ProvidersOk(b.providers, b.profiles) && References(b)
            && VersionsRise(a.bindings, b.bindings)
  {
    assert UniqueLegacy(a.profiles) && ProvidersOk(a.providers, a.profiles) && References(a);
    WithProfileMirrors(a, pid);
    hide Inv, Mirror;
  }

  lemma WithProfileKeeps(a: Db, pid: string)
    requires Inv(a) && a.installed && pid !in a.profiles
    ensures Inv(WithProfile(a, pid)) && Evolves(a, WithProfile(a, pid)) && StaleStays(a, WithProfile(a, pid))
  {
    WithProfileTables(a, pid);
    assert OwnersHold(a.bindings, a.owners) && UniqueActive(a.bindings);
    hide Inv, Evolves, StaleStays, UniqueLegacy, Mirror, ProvidersOk, References, VersionsRise, OwnersHold,
          UniqueActive;
    LinkTablesOnly(a, WithProfile(a, pid));
  }

  /** Nobody has the account, the profile or the name. */
  predicate MayFound(db: Db, k: Key, name: string) {
    && k.aid > 0 && k.aid !in db.owners && (forall l :: l in db.links ==> db.links[l].aid != k.aid)
    && k.pid !in db.profiles && k.pid !in db.users && NameFree(db.users, k.pid, Some(name))
  }

  lemma FoundIsFree(a: Db, k: Key, name: string)
    requires References(a) && MayFound(a, k, name)
    ensures k !in a.bindings && LinkKnown(WithProfile(a, k.pid), k) && MayTake(WithProfile(a, k.pid), k)
    ensures forall j :: j in a.bindings ==> j.pid != k.pid
    ensures forall i :: i in a.sessions ==> a.sessions[i].pid != k.pid
  {
  }

  function Founded(db: Db, k: Key, name: string, id: string, now: int): Db
    requires id in db.challenges && LinkKnown(WithProfile(db, k.pid), k)
  {
    Consumed(PutName(Taken(WithProfile(db, k.pid), k, now), k.pid, Some(name)), id)
  }

  lemma FoundedKeeps(a: Db, k: Key, name: string, id: string, now: int)
    requires Inv(a) && a.installed && MayFound(a, k, name) && id in a.challenges
    ensures LinkKnown(WithProfile(a, k.pid), k)
    ensures var b := Founded(a, k, name, id, now); Inv(b) && Evolves(a, b) && StaleStays(a, b)
  {
    assert References(a);
    FoundIsFree(a, k, name);
    assert k.pid !in a.profiles && NameFree(a.users, k.pid, Some(name));
    var m := WithProfile(a, k.pid);
    hide Inv, Evolves, StaleStays, References, MayFound, MayTake, Taken, LinkKnown, NameFree;
    WithProfileKeeps(a, k.pid);
    TakenKeeps(m, k, now);
    var n := Taken(m, k, now);
    PutNameKeeps(n, k.pid, Some(name));
    var o := PutName(n, k.pid, Some(name));
    ConsumedKeeps(o, id);
    hide WithProfile, PutName, Consumed, TakesOne;
    ChainThree(a, m, n, o);
    EvolvesChain(a, o, Founded(a, k, name, id, now));
    StaleChain(a, m, n);
    StaleChain(a, n, o);
    StaleChain(a, o, Founded(a, k, name, id, now));
  }

  lemma FoundedShape(a: Db, k: Key, name: string, id: string, now: int)
    requires References(a) && MayFound(a, k, name) && id in a.challenges
    ensures LinkKnown(WithProfile(a, k.pid), k)
    ensures var b := Founded(a, k, name, id, now);
            && b.installed == a.installed && b.sessions == a.sessions && b.passwords == a.passwords
            && b.passkeys == a.passkeys
            && k.pid in b.profiles && !b.profiles[k.pid].disabled && k in b.bindings && Active(b.bindings[k])
            && (forall j :: j in b.bindings && j.pid == k.pid ==> j == k) && b.drawn == a.drawn + {id}
            && k.aid in b.owners && b.owners[k.aid] == Some(k.pid) && id in b.challenges && b.challenges[id].consumed
  {
    FoundIsFree(a, k, name);
    TakenShape(WithProfile(a, k.pid), k, now);
    hide References, MayFound, MayTake, Taken, LinkKnown;
  }

  /** The only account of a profile is its default. */
  lemma OnlyIsDefault(db: Db, k: Key, aid: int)
    requires Inv(db) && db.installed && ProfileActive(db, k.pid) && k in db.bindings && Active(db.bindings[k])
    requires forall j :: j in db.bindings && j.pid == k.pid ==> j == k
    requires IsDefault(db, k.pid, aid)
    ensures aid == k.aid
  {
    ViewIsBinding(db, k);
    hide Inv;
  }

  /** A profile, a way in, and a session on its account. */
  method EnterFounded(db: Db, k: Key, c: Credential, sid: string, token: string, now: int) returns (b: Db)
    requires Inv(db) && db.installed && ProfileActive(db, k.pid) && CredentialActive(db, k.pid, c)
    requires k in db.bindings && Active(db.bindings[k]) && forall j :: j in db.bindings && j.pid == k.pid ==> j == k
    requires sid !in db.drawn && token !in db.drawn
    ensures Inv(b) && Evolves(db, b) && StaleStays(db, b) && SignedIn(b, Current(k.pid, k.aid, sid, token), now)
    ensures b == SessionMade(db, k.pid, c, sid, token, now, k.aid, now)
    ensures b.profiles == db.profiles && b.bindings == db.bindings && b.owners == db.owners
    ensures b.challenges == db.challenges
  {
    hide Inv, Evolves, StaleStays, SignedIn, IsDefault, Active, ProfileActive, CredentialActive, FreshSession;
    var made, chosen := MakeSession(db, k.pid, c, None, None, sid, token, now);
    OnlyIsDefault(db, k, chosen);
    b := made.value;
  }

  /** Nobody is on record as the owner of the account, no link names it, and profile and
      name are new. */
  ghost predicate FreeToFound(db: Db, pid: string, aid: int, name: string) {
    && aid > 0 && aid !in db.owners && (forall l :: l in db.links ==> db.links[l].aid != aid)
    && pid !in db.profiles && pid !in db.users && forall p :: p in db.users ==> db.users[p] != Some(name)
  }

  lemma FoundingIsFree(db: Db, k: Key, name: string)
    ensures MayFound(db, k, name) <==> FreeToFound(db, k.pid, k.aid, name)
  {
  }

  /** What founding a profile on a game code writes: the profile, the account under it,
      its owner, the name, the way in, the first session, and the code as used. */
  ghost predicate ProfileFounded(a: Db, b: Db, pid: string, aid: int, name: string, id: string, c: Credential,
        sid: string, token: string, now: int) {
    && b == a.(profiles := a.profiles[pid := Profile(None, false)],
               bindings := a.bindings[Key(pid, aid) := Binding(None, now, None, 2)],
               owners := a.owners[aid := Some(pid)], users := a.users[pid := Some(name)],
               passwords := b.passwords, passkeys := b.passkeys, challenges := SpentIn(a.challenges, id),
               sessions := a.sessions[sid := Session(token, pid, aid, 2, c, now, now, now, now + 30 * 86400, false)],
               drawn := a.drawn + {sid, token})
  }

  lemma FoundedTables(a: Db, k: Key, name: string, id: string, now: int)
    requires References(a) && MayFound(a, k, name) && ChallengesOk(a.challenges, a.drawn) && id in a.challenges
    requires LinkKnown(WithProfile(a, k.pid), k)
    ensures Founded(a, k, name, id, now) ==
            a.(profiles := a.profiles[k.pid := Profile(None, false)],
               bindings := a.bindings[k := Binding(None, now, None, 2)], owners := a.owners[k.aid := Some(k.pid)],
               users := a.users[k.pid := Some(name)], challenges := SpentIn(a.challenges, id))
  {
    FoundIsFree(a, k, name);
    var m := WithProfile(a, k.pid);
    assert k.aid !in m.owners && k !in m.bindings;
    hide References, ChallengesOk, Taken;
    TakenChanges(m, k, now);
    assert m.links == Taken(m, k, now).links;
    ConsumedIs(PutName(Taken(m, k, now), k.pid, Some(name)), id);
  }

  lemma FoundedChanges(a: Db, n: Db, b: Db, k: Key, name: string, id: string, c: Credential, sid: string,
        token: string, now: int)
    requires References(a) && MayFound(a, k, name) && ChallengesOk(a.challenges, a.drawn) && id in a.challenges
    requires LinkKnown(WithProfile(a, k.pid), k) && k in Founded(a, k, name, id, now).bindings
    requires n == Founded(a, k, name, id, now).(passwords := n.passwords, passkeys := n.passkeys) && k in n.bindings
    requires b == SessionMade(n, k.pid, c, sid, token, now, k.aid, now)
    ensures ProfileFounded(a, b, k.pid, k.aid, name, id, c, sid, token, now)
    ensures b.passwords == n.passwords && b.passkeys == n.passkeys
  {
    FoundedTables(a, k, name, id, now);
    hide References, MayFound, ChallengesOk, Founded, LinkKnown, SpentIn;
  }

  /** A verified game code becomes a profile with a password, its account and its
      first session, once. */
  method BootstrapPassword(conn: Connection, id: string, binding: string, name: string, hash: string, sid: string,
        token: string, now: int)
    returns (r: Result<string, AuthError>)
    requires Inv(conn.db) && conn.db.installed && sid !in conn.db.drawn && token !in conn.db.drawn
    modifies conn
    ensures old(conn.Idle()) ==> conn.Idle()
    ensures r.Ok? <==> && old(conn.Idle()) && TicketReady(old(conn.db), id, binding, GameOnboard, None, now)
                       && MayFound(old(conn.db), AccountOf(old(conn.db), id), name)
    ensures r.Err? ==> conn.db == old(conn.db)
    ensures r.Ok? ==> r.value == token && Onboarded(old(conn.db), conn.db, id, sid, token, now)
    ensures r.Ok? ==>
              var k := AccountOf(old(conn.db), id);
              && LinkKnown(WithProfile(old(conn.db), k.pid), k) && k in Founded(old(conn.db), k, name, id, now).bindings
              && conn.db == SessionMade(PutPassword(Founded(old(conn.db), k, name, id, now), k.pid, hash, 1), k.pid,
                                        PasswordVersion(1),
                                        sid, token, now, k.aid, now)
    ensures r.Ok? <==>
              && old(conn.Idle()) && id in old(conn.db).challenges
              && var p := old(conn.db).challenges[id];
              && Redeemable(p, binding, GameOnboard, None, now)
              && FreeToFound(old(conn.db), p.context.pid, p.context.aid, name)
    ensures r.Ok? ==>
              var p := old(conn.db).challenges[id].context;
              && ProfileFounded(old(conn.db), conn.db, p.pid, p.aid, name, id, PasswordVersion(1), sid, token, now)
              && conn.db.passkeys == old(conn.db).passkeys
              && conn.db.passwords == old(conn.db).passwords[p.pid := Password(hash, 1, false)]
    ensures Inv(conn.db) && Evolves(old(conn.db), conn.db) && StaleStays(old(conn.db), conn.db)
  {
    ghost var start := conn.db;
    EvolvesItself(conn.db);
    assert References(conn.db) && ChallengesOk(conn.db.challenges, conn.db.drawn);
    ReadyIsRedeemable(conn.db, id, binding, GameOnboard, None, now);
    FoundingIsFree(conn.db, AccountOf(conn.db, id), name);
    assert id in conn.db.challenges ==>
      AccountOf(conn.db, id) == Key(conn.db.challenges[id].context.pid, conn.db.challenges[id].context.aid);
    hide Inv, Evolves, StaleStays, SignedIn, References, Founded, Onboarded, Redeemable, FreeToFound, TicketReady;
    hide AccountOf, MayFound, SessionMade, LinkKnown, WithProfile, ProfileFounded;
    var ok := conn.Begin();
    if !ok {
      return Err(TransactionActive);
    }
    if !TicketReady(conn.db, id, binding, GameOnboard, None, now) {
      conn.Rollback();
      return Err(VerificationRequired);
    }
    var k := AccountOf(conn.db, id);
    var refused := FoundRefused(conn.db, k, name);
    if refused.Some? {
      conn.Rollback();
      return Err(refused.value);
    }
    conn.db := FoundWithPassword(conn.db, k, name, hash, id, sid, token, now);
    PasswordFoundedChanges(start, conn.db, k, name, hash, id, sid, token, now);
    conn.Commit();
    return Ok(token);
  }

  lemma PasswordFoundedChanges(a: Db, b: Db, k: Key, name: string, hash: string, id: string, sid: string,
        token: string, now: int)
    requires References(a) && MayFound(a, k, name) && ChallengesOk(a.challenges, a.drawn) && id in a.challenges
    requires LinkKnown(WithProfile(a, k.pid), k) && k in Founded(a, k, name, id, now).bindings
    requires b == SessionMade(PutPassword(Founded(a, k, name, id, now), k.pid, hash, 1), k.pid, PasswordVersion(1), sid,
                              token, now, k.aid, now)
    ensures ProfileFounded(a, b, k.pid, k.aid, name, id, PasswordVersion(1), sid, token, now)
    ensures b.passkeys == a.passkeys && b.passwords == a.passwords[k.pid := Password(hash, 1, false)]
  {
    FoundedShape(a, k, name, id, now);
    hide References, MayFound, ChallengesOk, Founded, LinkKnown, SessionMade, ProfileFounded;
    var n := PutPassword(Founded(a, k, name, id, now), k.pid, hash, 1);
    FoundedChanges(a, n, b, k, name, id, PasswordVersion(1), sid, token, now);
  }

  /** The profile and account that a challenge stands for. */
  function AccountOf(db: Db, id: string): Key {
    if id in db.challenges then Key(db.challenges[id].context.pid, db.challenges[id].context.aid) else Key("", 0)
  }

  /** The account has an owner for good, the code is spent, and its profile is signed
      in on it. */
  ghost predicate Onboarded(a: Db, b: Db, id: string, sid: string, token: string, now: int) {
    var k := AccountOf(a, id);
    && k.pid in b.profiles && k in b.bindings && k.aid in b.owners && b.owners[k.aid] == Some(k.pid)
    && id in b.challenges && b.challenges[id].consumed && SignedIn(b, Current(k.pid, k.aid, sid, token), now)
  }

  /** Why a profile cannot be founded, in the order the checks and constraints come. */
  method FoundRefused(db: Db, k: Key, name: string) returns (r: Option<AuthError>)
    ensures r.None? <==> MayFound(db, k, name)
  {
    if k.aid in db.owners || exists l :: l in db.links && db.links[l].aid == k.aid {
      return Some(ExistingAccountSignIn);
    }
    var free := NameIsFree(db.users, k.pid, name);
    if k.pid in db.profiles || k.pid in db.users || !free || k.aid <= 0 {
      return Some(UsernameUnavailable);
    }
    return None;
  }

  /** A founded profile with a way in, ready to be entered. */
  ghost predicate ReadyToEnter(a: Db, b: Db, k: Key, id: string) {
    && Inv(b) && Evolves(a, b) && StaleStays(a, b) && b.installed && k.pid in b.profiles && ProfileActive(b, k.pid)
    && k in b.bindings && Active(b.bindings[k])
    && (forall j :: j in b.bindings && j.pid == k.pid ==> j == k) && b.drawn == a.drawn
    && k.aid in b.owners && b.owners[k.aid] == Some(k.pid) && id in b.challenges && b.challenges[id].consumed
  }

  lemma FoundedIsReady(a: Db, k: Key, name: string, id: string, now: int)
    requires Inv(a) && a.installed && MayFound(a, k, name) && id in a.challenges && id in a.drawn
    ensures LinkKnown(WithProfile(a, k.pid), k)
    ensures ReadyToEnter(a, Founded(a, k, name, id, now), k, id)
  {
    hide Inv, Evolves, StaleStays, References, Founded, MayFound, Active, LinkKnown;
    hide SessionsBound, CredentialsHold, TokensOk, NotYet;
    SessionFacts(a);
    FoundedKeeps(a, k, name, id, now);
    FoundedShape(a, k, name, id, now);
    assert a.drawn + {id} == a.drawn;
  }

  lemma KeyedIsReady(a: Db, k: Key, name: string, key: string, id: string, now: int)
    requires Inv(a) && a.installed && MayFound(a, k, name) && id in a.challenges && id in a.drawn && key !in a.passkeys
    ensures LinkKnown(WithProfile(a, k.pid), k)
    ensures ReadyToEnter(a, PutPasskey(Founded(a, k, name, id, now), key, Passkey(k.pid, false)), k, id)
  {
    hide Inv, Evolves, StaleStays, References, Founded, MayFound, Active, LinkKnown, ActiveKeys;
    hide SessionsBound, CredentialsHold, TokensOk, NotYet;
    FoundedIsReady(a, k, name, id, now);
    SessionFacts(a);
    NoKeysYet(a, k, name);
    FoundedShape(a, k, name, id, now);
    var m := Founded(a, k, name, id, now);
    AddPasskeyKeeps(m, key, Passkey(k.pid, false));
    var n := PutPasskey(m, key, Passkey(k.pid, false));
    EvolvesChain(a, m, n);
    StaleChain(a, m, n);
  }

  lemma PasswordIsReady(a: Db, k: Key, name: string, hash: string, id: string, now: int)
    requires Inv(a) && a.installed && MayFound(a, k, name) && id in a.challenges && id in a.drawn
    ensures LinkKnown(WithProfile(a, k.pid), k)
    ensures ReadyToEnter(a, PutPassword(Founded(a, k, name, id, now), k.pid, hash, 1), k, id)
  {
    hide Inv, Evolves, StaleStays, References, Founded, MayFound, MayTake, Active, LinkKnown;
    hide SessionsBound, CredentialsHold, TokensOk, NotYet;
    FoundedIsReady(a, k, name, id, now);
    SessionFacts(a);
    FoundIsFree(a, k, name);
    FoundedShape(a, k, name, id, now);
    var m := Founded(a, k, name, id, now);
    PutPasswordKeeps(m, k.pid, hash, 1);
    var n := PutPassword(m, k.pid, hash, 1);
    EvolvesChain(a, m, n);
    StaleChain(a, m, n);
  }

  method FoundWithPassword(db: Db, k: Key, name: string, hash: string, id: string, sid: string, token: string,
        now: int) returns (b: Db)
    requires Inv(db) && db.installed && MayFound(db, k, name) && id in db.challenges && k == AccountOf(db, id)
    requires sid !in db.drawn && token !in db.drawn && id in db.drawn
    ensures Inv(b) && Evolves(db, b) && StaleStays(db, b) && Onboarded(db, b, id, sid, token, now)
    ensures LinkKnown(WithProfile(db, k.pid), k) && k in Founded(db, k, name, id, now).bindings
    ensures b == SessionMade(PutPassword(Founded(db, k, name, id, now), k.pid, hash, 1), k.pid, PasswordVersion(1), sid,
                             token, now, k.aid, now)
  {
    hide Inv, Evolves, StaleStays, SignedIn, Founded, MayFound, Active, LinkKnown, AccountOf, ProfileActive;
    PasswordIsReady(db, k, name, hash, id, now);
    var n := PutPassword(Founded(db, k, name, id, now), k.pid, hash, 1);
    b := EnterFounded(n, k, PasswordVersion(1), sid, token, now);
    EvolvesChain(db, n, b);
    StaleChain(db, n, b);
  }

  method FoundWithPasskey(db: Db, k: Key, name: string, key: string, id: string, sid: string, token: string,
        now: int) returns (b: Db)
    requires Inv(db) && db.installed && MayFound(db, k, name) && id in db.challenges && k == AccountOf(db, id)
    requires key !in db.passkeys && sid !in db.drawn && token !in db.drawn && id in db.drawn
    ensures Inv(b) && Evolves(db, b) && StaleStays(db, b) && Onboarded(db, b, id, sid, token, now)
    ensures LinkKnown(WithProfile(db, k.pid), k) && k in Founded(db, k, name, id, now).bindings
    ensures b == SessionMade(PutPasskey(Founded(db, k, name, id, now), key, Passkey(k.pid, false)), k.pid,
                             PasskeyId(key), sid, token, now, k.aid, now)
  {
    hide Inv, Evolves, StaleStays, SignedIn, Founded, MayFound, Active, LinkKnown, AccountOf, ProfileActive;
    KeyedIsReady(db, k, name, key, id, now);
    var n := PutPasskey(Founded(db, k, name, id, now), key, Passkey(k.pid, false));
    b := EnterFounded(n, k, PasskeyId(key), sid, token, now);
    EvolvesChain(db, n, b);
    StaleChain(db, n, b);
  }

  lemma NoKeysYet(db: Db, k: Key, name: string)
    requires References(db) && MayFound(db, k, name)
    ensures |ActiveKeys(db.passkeys, k.pid)| == 0
  {
    assert ActiveKeys(db.passkeys, k.pid) == {};
  }

  /** The checks of a first passkey: the challenge was made for this game code, which
      is still good, and nobody has the account, the name or the passkey. */
  ghost predicate PasskeyMayFound(db: Db, row: Challenge, binding: string, key: Option<string>, now: int) {
    && key.Some? && TicketReady(db, row.context.ticket, binding, GameOnboard, None, now)
    && Key(row.context.pid, row.context.aid) == AccountOf(db, row.context.ticket)
    && MayFound(db, AccountOf(db, row.context.ticket), row.context.name) && key.value !in db.passkeys
  }

  /** The whole effect of a first passkey. */
  ghost predicate FoundedBy(a: Db, b: Db, row: Challenge, key: string, sid: string, token: string, now: int) {
    var k, id := AccountOf(a, row.context.ticket), row.context.ticket;
    && id in a.challenges && LinkKnown(WithProfile(a, k.pid), k)
    && k in Founded(a, k, row.context.name, id, now).bindings
    && b == SessionMade(PutPasskey(Founded(a, k, row.context.name, id, now), key, Passkey(k.pid, false)), k.pid,
                        PasskeyId(key),
                        sid, token, now, k.aid, now)
  }

  /** The challenge of a first passkey is open. */
  predicate MayAttempt(db: Db, id: string, binding: string, now: int) {
    id in db.challenges && Open(db, id, binding, PasskeyBootstrap, db.challenges[id].pid, now)
  }

  /** What the attempt leaves, whatever its outcome. */
  function Attempted(db: Db, id: string, binding: string, now: int): Db {
    if MayAttempt(db, id, binding, now) then Consumed(db, id) else db
  }

  ghost predicate PasskeyAccepted(db: Db, id: string, binding: string, key: Option<string>, now: int) {
    && MayAttempt(db, id, binding, now)
    && PasskeyMayFound(Consumed(db, id), db.challenges[id], binding, key, now)
  }

  ghost predicate PasskeyFounded(a: Db, b: Db, id: string, binding: string, key: Option<string>, sid: string,
        token: string, now: int) {
    && MayAttempt(a, id, binding, now) && key.Some?
    && Onboarded(Consumed(a, id), b, a.challenges[id].context.ticket, sid, token, now)
    && FoundedBy(Consumed(a, id), b, a.challenges[id], key.value, sid, token, now)
  }

  /** The challenge of a first passkey was posed to this browser, has not been used and
      is not past its end. */
  ghost predicate KeyAttempted(db: Db, id: string, binding: string, now: int) {
    && id in db.challenges
    && var p := db.challenges[id];
    p.binding == binding && p.purpose == PasskeyBootstrap && !p.consumed && now <= p.expires
  }

  /** Besides, the game code it goes with was verified from the same browser and stands
      for the same profile and account, which are free; and so is the passkey. */
  ghost predicate KeyFounds(db: Db, id: string, binding: string, key: Option<string>, now: int) {
    && KeyAttempted(db, id, binding, now)
    && var p := db.challenges[id].context;
    && p.ticket in db.challenges && Redeemable(db.challenges[p.ticket], binding, GameOnboard, None, now)
    && db.challenges[p.ticket].context.pid == p.pid && db.challenges[p.ticket].context.aid == p.aid
    && FreeToFound(db, p.pid, p.aid, p.name) && key.Some? && key.value !in db.passkeys
  }

  lemma AttemptIsMeant(db: Db, id: string, binding: string, now: int)
    requires ChallengesOk(db.challenges, db.drawn)
    ensures MayAttempt(db, id, binding, now) <==> KeyAttempted(db, id, binding, now)
    ensures Attempted(db, id, binding, now) ==
            if KeyAttempted(db, id, binding, now) then db.(challenges := SpentIn(db.challenges, id)) else db
  {
    ConsumedIs(db, id);
    hide ChallengesOk, Consumed;
  }

  lemma AcceptedIsMeant(db: Db, id: string, binding: string, key: Option<string>, now: int)
    requires ChallengesOk(db.challenges, db.drawn)
    ensures PasskeyAccepted(db, id, binding, key, now) <==> KeyFounds(db, id, binding, key, now)
  {
    AttemptIsMeant(db, id, binding, now);
    if KeyAttempted(db, id, binding, now) {
      var p, m := db.challenges[id].context, Consumed(db, id);
      ReadyIsRedeemable(m, p.ticket, binding, GameOnboard, None, now);
      FoundingIsFree(m, AccountOf(m, p.ticket), p.name);
      assert p.ticket != id ==> (p.ticket in m.challenges <==> p.ticket in db.challenges);
      hide ChallengesOk, TicketReady, MayFound, MayAttempt;
    }
  }

  lemma KeyFoundedChanges(a: Db, b: Db, id: string, binding: string, key: Option<string>, sid: string, token: string,
        now: int)
    requires References(a) && ChallengesOk(a.challenges, a.drawn)
    requires PasskeyAccepted(a, id, binding, key, now) && PasskeyFounded(a, b, id, binding, key, sid, token, now)
    ensures id in a.challenges && key.Some?
    ensures var p := a.challenges[id].context;
            && ProfileFounded(a.(challenges := SpentIn(a.challenges, id)), b, p.pid, p.aid, p.name, p.ticket,
                              PasskeyId(key.value), sid, token, now)
            && b.passwords == a.passwords && b.passkeys == a.passkeys[key.value := Passkey(p.pid, false)]
  {
    AttemptCases(a, id, binding, key, now);
    ConsumedIs(a, id);
    ConsumedDrawn(a, id);
    var m, p := Consumed(a, id), a.challenges[id].context;
    var k := AccountOf(m, p.ticket);
    assert FoundedBy(m, b, a.challenges[id], key.value, sid, token, now);
    assert MayFound(m, k, p.name) && k == Key(p.pid, p.aid);
    assert References(m);
    hide References, MayFound, ChallengesOk, Founded, LinkKnown, ProfileFounded, TicketReady, AccountOf, SpentIn,
         SessionMade, MayAttempt, Onboarded, Consumed;
    FoundedShape(m, k, p.name, p.ticket, now);
    var n := PutPasskey(Founded(m, k, p.name, p.ticket, now), key.value, Passkey(k.pid, false));
    FoundedChanges(m, n, b, k, p.name, p.ticket, PasskeyId(key.value), sid, token, now);
  }

  /** The same with a passkey: its own challenge is spent by the attempt, the game
      code only by success. */
  method BootstrapPasskey(conn: Connection, id: string, binding: string, key: Option<string>, sid: string,
        token: string, now: int)
    returns (r: Result<string, AuthError>)
    requires Inv(conn.db) && conn.db.installed && sid !in conn.db.drawn && token !in conn.db.drawn
    modifies conn
    ensures old(conn.Idle()) ==> conn.Idle()
    ensures r.Ok? <==> old(conn.Idle()) && PasskeyAccepted(old(conn.db), id, binding, key, now)
    ensures r.Err? ==>
              conn.db == if old(conn.Idle()) then Attempted(old(conn.db), id, binding, now) else old(conn.db)
    ensures r.Ok? ==> r.value == token && PasskeyFounded(old(conn.db), conn.db, id, binding, key, sid, token, now)
    ensures r.Ok? <==> old(conn.Idle()) && KeyFounds(old(conn.db), id, binding, key, now)
    ensures r.Err? && old(conn.Idle()) && KeyAttempted(old(conn.db), id, binding, now) ==>
              conn.db == old(conn.db).(challenges := SpentIn(old(conn.db).challenges, id))
    ensures r.Err? && !(old(conn.Idle()) && KeyAttempted(old(conn.db), id, binding, now)) ==>
              conn.db == old(conn.db)
    ensures r.Ok? ==>
              && id in old(conn.db).challenges && key.Some?
              && var p := old(conn.db).challenges[id].context;
              && ProfileFounded(old(conn.db).(challenges := SpentIn(old(conn.db).challenges, id)), conn.db, p.pid,
                                p.aid, p.name, p.ticket, PasskeyId(key.value), sid, token, now)
              && conn.db.passwords == old(conn.db).passwords
              && conn.db.passkeys == old(conn.db).passkeys[key.value := Passkey(p.pid, false)]
    ensures Inv(conn.db) && Evolves(old(conn.db), conn.db) && StaleStays(old(conn.db), conn.db)
  {
    hide *;
    ghost var start := conn.db;
    EvolvesItself(conn.db);
    ChallengeFacts(conn.db);
    SessionFacts(conn.db);
    AttemptCases(conn.db, id, binding, key, now);
    AttemptIsMeant(conn.db, id, binding, now);
    AcceptedIsMeant(conn.db, id, binding, key, now);
    if id !in conn.db.challenges {
      return Err(ChallengeExpired);
    }
    var consumed := ConsumeChallenge(conn, id, binding, PasskeyBootstrap, conn.db.challenges[id].pid, now);
    if consumed.Err? {
      return Err(consumed.error);
    }
    ghost var m := conn.db;
    ConsumedDrawn(start, id);
    if key.None? {
      return Err(PasskeyFailed);
    }
    var founded := FoundByPasskey(conn.db, consumed.value, binding, key.value, sid, token, now);
    if founded.Err? {
      return Err(founded.error);
    }
    conn.db := founded.value;
    FoundedByAttempt(start, conn.db, id, binding, key, sid, token, now);
    KeyFoundedChanges(start, conn.db, id, binding, key, sid, token, now);
    EvolvesChain(start, m, conn.db);
    StaleChain(start, m, conn.db);
    return Ok(token);
  }

  lemma AttemptCases(a: Db, id: string, binding: string, key: Option<string>, now: int)
    ensures id !in a.challenges ==> !PasskeyAccepted(a, id, binding, key, now) && Attempted(a, id, binding, now) == a
    ensures id in a.challenges ==>
              && (MayAttempt(a, id, binding, now) <==>
                    Open(a, id, binding, PasskeyBootstrap, a.challenges[id].pid, now))
              && Attempted(a, id, binding, now) == (if MayAttempt(a, id, binding, now) then Consumed(a, id) else a)
              && (PasskeyAccepted(a, id, binding, key, now) <==>
                    MayAttempt(a, id, binding, now)
                    && PasskeyMayFound(Consumed(a, id), a.challenges[id], binding, key, now))
              && (PasskeyAccepted(a, id, binding, key, now) ==> key.Some?)
  {
    hide Consumed, TicketReady, MayFound, Open;
  }

  lemma FoundedByAttempt(a: Db, b: Db, id: string, binding: string, key: Option<string>, sid: string, token: string,
        now: int)
    requires MayAttempt(a, id, binding, now) && key.Some?
    requires Onboarded(Consumed(a, id), b, a.challenges[id].context.ticket, sid, token, now)
    requires FoundedBy(Consumed(a, id), b, a.challenges[id], key.value, sid, token, now)
    ensures PasskeyFounded(a, b, id, binding, key, sid, token, now)
  {
    hide Consumed, FoundedBy, Onboarded, MayAttempt;
  }

  lemma ConsumedDrawn(a: Db, id: string)
    requires ChallengesOk(a.challenges, a.drawn) && id in a.challenges
    ensures Consumed(a, id).drawn == a.drawn && ChallengesOk(Consumed(a, id).challenges, a.drawn)
    ensures Consumed(a, id).installed == a.installed
  {
  }

  method FoundByPasskey(db: Db, row: Challenge, binding: string, key: string, sid: string, token: string, now: int)
    returns (r: Result<Db, AuthError>)
    requires Inv(db) && db.installed && sid !in db.drawn && token !in db.drawn && ChallengesOk(db.challenges, db.drawn)
    ensures r.Ok? <==> PasskeyMayFound(db, row, binding, Some(key), now)
    ensures r.Ok? ==>
              && Inv(r.value) && Evolves(db, r.value) && StaleStays(db, r.value)
              && Onboarded(db, r.value, row.context.ticket, sid, token, now)
    ensures r.Ok? ==> FoundedBy(db, r.value, row, key, sid, token, now)
  {
    hide Inv, Evolves, StaleStays, Onboarded, MayFound;
    var ticket := row.context.ticket;
    if !TicketReady(db, ticket, binding, GameOnboard, None, now) {
      return Err(VerificationRequired);
    }
    var k := AccountOf(db, ticket);
    if Key(row.context.pid, row.context.aid) != k {
      return Err(ChallengeExpired);
    }
    var refused := FoundRefused(db, k, row.context.name);
    if refused.Some? {
      return Err(refused.value);
    }
    if key in db.passkeys {
      return Err(UsernameUnavailable);
    }
    var b := FoundWithPasskey(db, k, row.context.name, key, ticket, sid, token, now);
    return Ok(b);
  }

  // --------------------------------------------------------------- installation

  function HoldersOf(bindings: Bindings, aid: int): set<string> {
    set k | k in bindings && k.aid == aid :: k.pid
  }

  function ActiveHoldersOf(bindings: Bindings, aid: int): set<string> {
    set k | k in bindings && k.aid == aid && Active(bindings[k]) :: k.pid
  }

  /** Whom the tables show as an account's owner: the one who holds it, or held it
      alone; otherwise nobody. */
  ghost predicate IsOwner(bindings: Bindings, aid: int, owner: Option<string>) {
    if |ActiveHoldersOf(bindings, aid)| == 1 then owner.Some? && owner.value in ActiveHoldersOf(bindings, aid)
    else if |HoldersOf(bindings, aid)| == 1 then owner.Some? && owner.value in HoldersOf(bindings, aid)
    else owner == None
  }

  method OwnerOf(bindings: Bindings, aid: int) returns (owner: Option<string>)
    ensures IsOwner(bindings, aid, owner)
  {
    var active, owners := ActiveHoldersOf(bindings, aid), HoldersOf(bindings, aid);
    if |active| == 1 {
      var p :| p in active;
      return Some(p);
    }
    if |owners| == 1 {
      var p :| p in owners;
      return Some(p);
    }
    return None;
  }

  function AccountsOf(bindings: Bindings): set<int> {
    set k | k in bindings :: k.aid
  }

  /** Records an owner for every account there is. */
  method RecordOwners(bindings: Bindings) returns (owners: Owners)
    ensures owners.Keys == AccountsOf(bindings) && forall n :: n in owners ==> IsOwner(bindings, n, owners[n])
  {
    owners := map[];
    var todo := AccountsOf(bindings);
    while todo != {}
      invariant owners.Keys + todo == AccountsOf(bindings) && owners.Keys !! todo
      invariant forall n :: n in owners ==> IsOwner(bindings, n, owners[n])
    {
      EmptyOrMember(todo);
      var n :| n in todo;
      var owner := OwnerOf(bindings, n);
      owners := owners[n := owner];
      todo := todo - {n};
    }
  }

  lemma RecordedHold(bindings: Bindings, owners: Owners)
    requires UniqueActive(bindings) && owners.Keys == AccountsOf(bindings)
    requires forall n :: n in owners ==> IsOwner(bindings, n, owners[n])
    ensures OwnersHold(bindings, owners)
  {
    forall k | k in bindings && Active(bindings[k]) ensures k.aid in owners && owners[k.aid] == Some(k.pid) {
      assert k.aid in AccountsOf(bindings);
      assert ActiveHoldersOf(bindings, k.aid) == {k.pid};
      assert IsOwner(bindings, k.aid, owners[k.aid]);
    }
  }

  /** The profile holds the account; or nobody does, and nobody else ever did. */
  ghost predicate OwnerShown(bindings: Bindings, aid: int, pid: string) {
    && Key(pid, aid) in bindings
    && (bindings[Key(pid, aid)].revokedAt.None?
        || forall k :: k in bindings && k.aid == aid ==> bindings[k].revokedAt.Some? && k.pid == pid)
  }

  lemma RecordedAreShown(bindings: Bindings, owners: Owners)
    requires UniqueActive(bindings) && owners.Keys == AccountsOf(bindings)
    requires forall n :: n in owners ==> IsOwner(bindings, n, owners[n])
    ensures forall n :: n in owners <==> exists k :: k in bindings && k.aid == n
    ensures forall n, p :: n in owners && owners[n] == Some(p) <==> OwnerShown(bindings, n, p)
  {
    forall n, p ensures n in owners && owners[n] == Some(p) <==> OwnerShown(bindings, n, p) {
      if n in owners {
        OwnerIsShown(bindings, n, owners[n], p);
      } else {
        assert Key(p, n) in bindings ==> n in AccountsOf(bindings);
      }
    }
  }

  lemma OneMember(s: set<string>, p: string)
    requires p in s
    ensures |s| == 1 <==> s == {p}
  {
    if |s| == 1 {
      Smaller({p}, s);
      assert s == {p} + (s - {p});
    }
  }

  lemma OwnerIsShown(bindings: Bindings, aid: int, owner: Option<string>, pid: string)
    requires UniqueActive(bindings) && IsOwner(bindings, aid, owner)
    ensures owner == Some(pid) <==> OwnerShown(bindings, aid, pid)
  {
    var active, holders := ActiveHoldersOf(bindings, aid), HoldersOf(bindings, aid);
    assert active <= holders;
    if k :| k in bindings && k.aid == aid && Active(bindings[k]) {
      assert active == {k.pid};
    } else {
      assert active == {};
      if pid in holders {
        OneMember(holders, pid);
        assert OwnerShown(bindings, aid, pid) <==> holders == {pid} by {
          forall k | k in bindings && k.aid == aid ensures k.pid in holders {
          }
        }
      } else {
        assert Key(pid, aid) !in bindings;
      }
    }
  }

  /** Sets the credential tables up over the migrated profiles. A second installation
      changes nothing. */
  method Install(conn: Connection) returns (r: Result<(), AuthError>)
    requires Inv(conn.db)
    modifies conn
    ensures old(conn.Idle()) ==> conn.Idle()
    ensures r.Ok? <==> old(conn.Idle())
    ensures r.Err? || old(conn.db).installed ==> conn.db == old(conn.db)
    ensures r.Ok? && !old(conn.db).installed ==>
              && conn.db == old(conn.db).(installed := true, owners := conn.db.owners, users := conn.db.users)
              && conn.db.owners.Keys == AccountsOf(conn.db.bindings)
              && (forall n :: n in conn.db.owners ==> IsOwner(conn.db.bindings, n, conn.db.owners[n]))
              && conn.db.users == map p | p in conn.db.profiles :: None
    ensures r.Ok? && !old(conn.db).installed ==>
              && (forall n :: n in conn.db.owners <==> exists k :: k in conn.db.bindings && k.aid == n)
              && forall n, p :: n in conn.db.owners && conn.db.owners[n] == Some(p) <==>
                                  OwnerShown(conn.db.bindings, n, p)
    ensures Inv(conn.db) && Evolves(old(conn.db), conn.db)
  {
    EvolvesItself(conn.db);
    assert UniqueActive(conn.db.bindings);
    ghost var start := conn.db;
    hide Inv, Evolves, IsOwner, AccountsOf, UniqueActive, OwnerShown;
    var ok := conn.Begin();
    if !ok {
      return Err(TransactionActive);
    }
    if conn.db.installed {
      conn.Commit();
      return Ok(());
    }
    var owners := RecordOwners(conn.db.bindings);
    RecordedAreShown(conn.db.bindings, owners);
    InstalledKeeps(conn.db, owners);
    conn.db := conn.db.(installed := true, owners := owners, users := map p | p in conn.db.profiles :: None);
    conn.Commit();
    return Ok(());
  }

  lemma InstalledKeeps(a: Db, owners: Owners)
    requires Inv(a) && !a.installed && owners.Keys == AccountsOf(a.bindings)
    requires forall n :: n in owners ==> IsOwner(a.bindings, n, owners[n])
    ensures var b := a.(installed := true, owners := owners, users := map p | p in a.profiles :: None);
            Inv(b) && Evolves(a, b)
  {
    assert UniqueActive(a.bindings) && NotYet(a);
    RecordedHold(a.bindings, owners);
    EvolvesItself(a);
    hide Mirror, UniqueLegacy, UniqueActive, OwnersHold, ProvidersOk, PasskeysBounded, AccountsOf, IsOwner;
    hide TokensOk, VersionsRise, ChallengesOk;
  }
}
