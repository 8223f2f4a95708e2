/** The small changes that the operations on the sign-in tables are made of. Each
    keeps the invariant and what must stay in place; an operation is a few of them
    in one transaction. */
module PortalSteps {
  import opened Wrappers
  import opened PortalTables

  /** What a step promises, for all sessions but possibly one. */
  ghost predicate StaleStaysBut(a: Db, b: Db, sid: string) {
    forall i :: i in a.sessions && Stale(a, i) && i != sid ==>
      i in b.sessions && b.sessions[i].pid == a.sessions[i].pid && b.sessions[i].aid == a.sessions[i].aid && Stale(b, i)
  }

  lemma StaleButChain(a: Db, b: Db, c: Db, sid: string)
    requires StaleStaysBut(a, b, sid) && StaleStaysBut(b, c, sid)
    ensures StaleStaysBut(a, c, sid)
  {
  }

  lemma StaleButNone(a: Db, b: Db, sid: string)
    requires StaleStaysBut(a, b, sid) && (sid in a.sessions ==> !Stale(a, sid))
    ensures StaleStays(a, b)
  {
  }

  lemma StaleIsBut(a: Db, b: Db, sid: string)
    requires StaleStays(a, b)
    ensures StaleStaysBut(a, b, sid)
  {
  }

  // ----------------------------------------------------------------- sessions

  function RevokedIn(sessions: Sessions, who: set<string>): Sessions {
    map i | i in sessions :: if i in who then sessions[i].(revoked := true) else sessions[i]
  }

  /** Signs sessions out. */
  function SignOut(db: Db, who: set<string>): Db {
    db.(sessions := RevokedIn(db.sessions, who))
  }

  lemma SignOutSessions(a: Db, who: set<string>)
    requires SessionsBound(a.sessions, a.bindings) && CredentialsHold(a) && TokensOk(a.sessions, a.drawn)
    ensures var b := SignOut(a, who);
            SessionsBound(b.sessions, b.bindings) && CredentialsHold(b) && TokensOk(b.sessions, b.drawn)
  {
  }

  lemma SignOutLeaves(a: Db, who: set<string>)
    requires References(a) && (!a.installed ==> NotYet(a))
    ensures var b := SignOut(a, who);
            References(b) && (!b.installed ==> NotYet(b)) && SessionsKept(a, b) && StaleStays(a, b)
  {
  }

  /** A change of sessions and of nothing else. */
  lemma SessionsOnly(a: Db, b: Db)
    requires Inv(a) && b == a.(sessions := b.sessions)
    requires SessionsBound(b.sessions, b.bindings) && CredentialsHold(b) && TokensOk(b.sessions, b.drawn)
    requires References(b) && (!b.installed ==> NotYet(b)) && SessionsKept(a, b)
    ensures Inv(b) && Evolves(a, b)
  {
    EvolvesItself(a);
    SameMethods(a, b);
    hide Mirror, UniqueLegacy, UniqueActive, OwnersHold, ProvidersOk, References, PasskeysBounded, CredentialsHold,
         MethodsKept;
    hide SessionsBound, TokensOk, VersionsRise, ChallengesOk, SessionsKept, UniqueNames, NotYet, ChallengesKept,
         OwnersKept, StaleStays;
  }

  /** What the sessions are checked against. */
  lemma SessionFacts(a: Db)
    requires Inv(a)
    ensures SessionsBound(a.sessions, a.bindings) && CredentialsHold(a) && TokensOk(a.sessions, a.drawn)
    ensures References(a) && (!a.installed ==> NotYet(a))
  {
  }

  lemma SignOutKeeps(a: Db, who: set<string>)
    requires Inv(a)
    ensures Inv(SignOut(a, who)) && Evolves(a, SignOut(a, who)) && StaleStays(a, SignOut(a, who))
  {
    SessionFacts(a);
    hide *;
    SignOutSessions(a, who);
    SignOutLeaves(a, who);
    SignOutOnly(a, who);
    SessionsOnly(a, SignOut(a, who));
  }

  lemma SignOutOnly(a: Db, who: set<string>)
    ensures SignOut(a, who) == a.(sessions := SignOut(a, who).sessions)
  {
  }

  lemma SameMethods(a: Db, b: Db)
    requires b.passwords == a.passwords && b.passkeys == a.passkeys && b.providers == a.providers
    ensures MethodsKept(a, b)
  {
  }

  /** Puts a session in place of itself, or adds one, under a token that is its own
      or newly drawn. */
  function PutSession(db: Db, sid: string, s: Session): Db {
    db.(sessions := db.sessions[sid := s], drawn := db.drawn + {sid, s.token})
  }

  ghost predicate SessionFits(db: Db, sid: string, s: Session) {
    && db.installed && s.pid in db.profiles && SessionBound(db.bindings, s)
    && (s.revoked || CredentialActive(db, s.pid, s.credential))
    && (if sid in db.sessions then
          s.pid == db.sessions[sid].pid && (db.sessions[sid].revoked ==> s.revoked)
          && (s.token == db.sessions[sid].token || s.token !in db.drawn)
        else sid !in db.drawn && s.token !in db.drawn)
  }

  lemma PutSessionTables(a: Db, sid: string, s: Session)
    requires SessionFits(a, sid, s)
    requires SessionsBound(a.sessions, a.bindings) && TokensOk(a.sessions, a.drawn) && References(a)
    ensures var b := PutSession(a, sid, s);
            && SessionsBound(b.sessions, b.bindings) && TokensOk(b.sessions, b.drawn) && References(b)
            && SessionsKept(a, b)
  {
  }

  lemma PutSessionLeaves(a: Db, sid: string, s: Session)
    requires SessionFits(a, sid, s) && CredentialsHold(a)
    ensures CredentialsHold(PutSession(a, sid, s)) && StaleStaysBut(a, PutSession(a, sid, s), sid)
  {
  }

  lemma MoreDrawn(challenges: Challenges, drawn: set<string>, more: set<string>)
    requires ChallengesOk(challenges, drawn) && drawn <= more
    ensures ChallengesOk(challenges, more)
  {
  }

  lemma PutSessionKeeps(a: Db, sid: string, s: Session)
    requires Inv(a) && SessionFits(a, sid, s)
    ensures Inv(PutSession(a, sid, s)) && Evolves(a, PutSession(a, sid, s))
    ensures StaleStaysBut(a, PutSession(a, sid, s), sid)
  {
    PutSessionTables(a, sid, s);
    PutSessionLeaves(a, sid, s);
    EvolvesItself(a);
    SameMethods(a, PutSession(a, sid, s));
    MoreDrawn(a.challenges, a.drawn, PutSession(a, sid, s).drawn);
    assert a.installed;
    hide Mirror, UniqueLegacy, UniqueActive, OwnersHold, ProvidersOk, References, PasskeysBounded, CredentialsHold,
          MethodsKept;
    hide SessionsBound, TokensOk, VersionsRise, ChallengesOk, SessionsKept, UniqueNames, NotYet, SessionFits,
          StaleStaysBut;
  }

  // -------------------------------------------------------------- credentials

  /** Nobody is signed in by a way in that is about to change or go. */
  predicate NobodyBy(sessions: Sessions, pid: string, c: Credential) {
    forall i :: i in sessions && !sessions[i].revoked && sessions[i].pid == pid ==> sessions[i].credential != c
  }

  predicate NobodyByPassword(sessions: Sessions, pid: string) {
    forall i :: i in sessions && !sessions[i].revoked && sessions[i].pid == pid ==>
      !sessions[i].credential.PasswordVersion?
  }

  function PutPassword(db: Db, pid: string, hash: string, version: int): Db {
    db.(passwords := db.passwords[pid := Password(hash, version, false)])
  }

  /** A change of ways in and of nothing else. */
  lemma WaysInOnly(a: Db, b: Db)
    requires Inv(a) && b == a.(passwords := b.passwords, passkeys := b.passkeys, providers := b.providers)
    requires a.installed && References(b) && ProvidersOk(b.providers, b.profiles) && PasskeysBounded(b.passkeys)
    requires CredentialsHold(b) && MethodsKept(a, b)
    ensures Inv(b) && Evolves(a, b) && StaleStays(a, b)
  {
    EvolvesItself(a);
    SameSessionsStale(a, b);
    hide Mirror, UniqueLegacy, UniqueActive, OwnersHold, ProvidersOk, References, PasskeysBounded, CredentialsHold,
          MethodsKept;
    hide SessionsBound, TokensOk, VersionsRise, ChallengesOk, UniqueNames, NotYet, StaleStays;
  }

  /** What the ways in are checked against. */
  lemma WayFacts(a: Db)
    requires Inv(a)
    ensures References(a) && ProvidersOk(a.providers, a.profiles) && CredentialsHold(a) && PasskeysBounded(a.passkeys)
  {
  }

  lemma SameSessionsStale(a: Db, b: Db)
    requires b.sessions == a.sessions && b.bindings == a.bindings
    ensures StaleStays(a, b)
  {
  }

  lemma PutPasswordKeeps(a: Db, pid: string, hash: string, version: int)
    requires Inv(a) && a.installed && pid in a.profiles && NobodyByPassword(a.sessions, pid)
    ensures var b := PutPassword(a, pid, hash, version); Inv(b) && Evolves(a, b) && StaleStays(a, b)
  {
    hide Inv, Evolves, StaleStays, CredentialsHold, MethodsKept, References, ProvidersOk, PasskeysBounded,
         NobodyByPassword;
    WayFacts(a);
    PutPasswordHolds(a, pid, hash, version);
    WaysInOnly(a, PutPassword(a, pid, hash, version));
  }

  lemma PutPasswordHolds(a: Db, pid: string, hash: string, version: int)
    requires References(a) && CredentialsHold(a) && pid in a.profiles && NobodyByPassword(a.sessions, pid)
    ensures var b := PutPassword(a, pid, hash, version); References(b) && CredentialsHold(b) && MethodsKept(a, b)
  {
  }

  function DropPassword(db: Db, pid: string): Db
    requires pid in db.passwords
  {
    db.(passwords := db.passwords[pid := db.passwords[pid].(revoked := true)])
  }

  lemma DropPasswordKeeps(a: Db, pid: string)
    requires Inv(a) && a.installed && pid in a.passwords && NobodyByPassword(a.sessions, pid)
    requires HasMethod(DropPassword(a, pid), pid)
    ensures var b := DropPassword(a, pid); Inv(b) && Evolves(a, b) && StaleStays(a, b)
  {
    hide Inv, Evolves, StaleStays, CredentialsHold, MethodsKept, References, ProvidersOk, PasskeysBounded, HasMethod,
         NobodyByPassword;
    WayFacts(a);
    DropPasswordHolds(a, pid);
    WaysInOnly(a, DropPassword(a, pid));
  }

  lemma DropPasswordHolds(a: Db, pid: string)
    requires References(a) && CredentialsHold(a) && pid in a.passwords && NobodyByPassword(a.sessions, pid)
    requires HasMethod(DropPassword(a, pid), pid)
    ensures var b := DropPassword(a, pid); References(b) && CredentialsHold(b) && MethodsKept(a, b)
  {
  }

  function PutPasskey(db: Db, id: string, k: Passkey): Db {
    db.(passkeys := db.passkeys[id := k])
  }

  /** A new passkey, within the limit. */
  lemma AddPasskeyKeeps(a: Db, id: string, k: Passkey)
    requires Inv(a) && a.installed && id !in a.passkeys && k.pid in a.profiles && !k.revoked
    requires |ActiveKeys(a.passkeys, k.pid)| < 8
    ensures var b := PutPasskey(a, id, k); Inv(b) && Evolves(a, b) && StaleStays(a, b)
  {
    var b := PutPasskey(a, id, k);
    assert References(a) && ProvidersOk(a.providers, a.profiles) && CredentialsHold(a) && PasskeysBounded(a.passkeys);
    hide Inv, ProvidersOk;
    assert References(b);
    OneMoreKey(a.passkeys, id, k);
    MoreKeysHold(a, id, k);
    hide PasskeysBounded, CredentialsHold, MethodsKept, References;
    WaysInOnly(a, b);
  }

  lemma MoreKeysHold(a: Db, id: string, k: Passkey)
    requires CredentialsHold(a) && id !in a.passkeys
    ensures CredentialsHold(PutPasskey(a, id, k)) && MethodsKept(a, PutPasskey(a, id, k))
  {
    forall pid | ActiveKeys(a.passkeys, pid) != {} ensures ActiveKeys(PutPasskey(a, id, k).passkeys, pid) != {} {
      var j :| j in ActiveKeys(a.passkeys, pid);
      assert j in ActiveKeys(PutPasskey(a, id, k).passkeys, pid);
    }
  }

  lemma KeysAfter(passkeys: Passkeys, id: string, k: Passkey, pid: string)
    requires id !in passkeys && !k.revoked
    ensures ActiveKeys(passkeys[id := k], pid) == ActiveKeys(passkeys, pid) + if pid == k.pid then {id} else {}
  {
  }

  lemma OneMoreKey(passkeys: Passkeys, id: string, k: Passkey)
    requires PasskeysBounded(passkeys) && id !in passkeys && !k.revoked && |ActiveKeys(passkeys, k.pid)| < 8
    ensures PasskeysBounded(passkeys[id := k])
  {
    var more := passkeys[id := k];
    forall pid ensures |ActiveKeys(more, pid)| <= 8 {
      KeysAfter(passkeys, id, k, pid);
    }
  }

  lemma FewerKeys(passkeys: Passkeys, id: string, k: Passkey)
    requires PasskeysBounded(passkeys) && id in passkeys && (k.revoked || !passkeys[id].revoked)
    requires k.pid == passkeys[id].pid
    ensures PasskeysBounded(passkeys[id := k])
  {
    var fewer := passkeys[id := k];
    forall pid ensures |ActiveKeys(fewer, pid)| <= 8 {
      assert ActiveKeys(fewer, pid) <= ActiveKeys(passkeys, pid);
      Smaller(ActiveKeys(fewer, pid), ActiveKeys(passkeys, pid));
    }
  }

  lemma Smaller(s: set<string>, t: set<string>)
    requires s <= t
    ensures |s| <= |t|
  {
    assert t == s + (t - s);
  }

  function DropPasskey(db: Db, id: string): Db
    requires id in db.passkeys
  {
    PutPasskey(db, id, db.passkeys[id].(revoked := true))
  }

  lemma DropPasskeyKeeps(a: Db, id: string)
    requires Inv(a) && a.installed && id in a.passkeys && NobodyBy(a.sessions, a.passkeys[id].pid, PasskeyId(id))
    requires HasMethod(DropPasskey(a, id), a.passkeys[id].pid)
    ensures var b := DropPasskey(a, id); Inv(b) && Evolves(a, b) && StaleStays(a, b)
  {
    var b := DropPasskey(a, id);
    assert References(a) && ProvidersOk(a.providers, a.profiles) && CredentialsHold(a) && PasskeysBounded(a.passkeys);
    hide Inv, ProvidersOk;
    assert References(b) && CredentialsHold(b);
    FewerKeys(a.passkeys, id, b.passkeys[id]);
    OthersKeepMethods(a, id);
    hide PasskeysBounded, CredentialsHold, MethodsKept, References, HasMethod;
    WaysInOnly(a, b);
  }

  lemma OthersKeepMethods(a: Db, id: string)
    requires id in a.passkeys && HasMethod(DropPasskey(a, id), a.passkeys[id].pid)
    ensures MethodsKept(a, DropPasskey(a, id))
  {
    var b := DropPasskey(a, id);
    forall pid | HasMethod(a, pid) ensures HasMethod(b, pid) {
      if pid != a.passkeys[id].pid && ActiveKeys(a.passkeys, pid) != {} {
        var j :| j in ActiveKeys(a.passkeys, pid);
        assert j in ActiveKeys(b.passkeys, pid);
      }
    }
  }

  function PutProvider(db: Db, did: string, p: Provider): Db {
    db.(providers := db.providers[did := p])
  }

  lemma ProviderKeepsMethods(a: Db, did: string, p: Provider)
    requires did in a.providers ==> a.providers[did].pid == p.pid
    requires HasMethod(PutProvider(a, did, p), p.pid)
    ensures MethodsKept(a, PutProvider(a, did, p))
  {
    var b := PutProvider(a, did, p);
    forall pid | HasMethod(a, pid) ensures HasMethod(b, pid) {
      if pid != p.pid && exists d :: d in a.providers && a.providers[d] == Provider(pid, false) {
        var d :| d in a.providers && a.providers[d] == Provider(pid, false);
        assert b.providers[d] == Provider(pid, false);
      }
    }
  }

  /** A provider of one's own, where no other is active. */
  lemma LinkProviderKeeps(a: Db, did: string, pid: string)
    requires Inv(a) && a.installed && pid in a.profiles && (did in a.providers ==> a.providers[did].pid == pid)
    requires forall d :: d in a.providers && a.providers[d] == Provider(pid, false) ==> d == did
    ensures var b := PutProvider(a, did, Provider(pid, false)); Inv(b) && Evolves(a, b) && StaleStays(a, b)
  {
    hide Inv, Evolves, StaleStays, CredentialsHold, MethodsKept, References, ProvidersOk, PasskeysBounded, HasMethod;
    WayFacts(a);
    LinkProviderHolds(a, did, pid);
    ProviderKeepsMethods(a, did, Provider(pid, false));
    WaysInOnly(a, PutProvider(a, did, Provider(pid, false)));
  }

  lemma LinkProviderHolds(a: Db, did: string, pid: string)
    requires References(a) && CredentialsHold(a) && ProvidersOk(a.providers, a.profiles) && pid in a.profiles
    requires did in a.providers ==> a.providers[did].pid == pid
    requires forall d :: d in a.providers && a.providers[d] == Provider(pid, false) ==> d == did
    ensures var b := PutProvider(a, did, Provider(pid, false));
            References(b) && CredentialsHold(b) && ProvidersOk(b.providers, b.profiles) && HasMethod(b, pid)
  {
    assert PutProvider(a, did, Provider(pid, false)).providers[did] == Provider(pid, false);
  }

  function DropProvider(db: Db, did: string): Db
    requires did in db.providers
  {
    PutProvider(db, did, db.providers[did].(revoked := true))
  }

  lemma DropProviderKeeps(a: Db, did: string)
    requires Inv(a) && a.installed && did in a.providers
    requires NobodyBy(a.sessions, a.providers[did].pid, DiscordSubject(did))
    requires HasMethod(DropProvider(a, did), a.providers[did].pid)
    ensures var b := DropProvider(a, did); Inv(b) && Evolves(a, b) && StaleStays(a, b)
  {
    hide Inv, Evolves, StaleStays, CredentialsHold, MethodsKept, References, ProvidersOk, PasskeysBounded, HasMethod,
         NobodyBy;
    WayFacts(a);
    DropProviderHolds(a, did);
    ProviderKeepsMethods(a, did, a.providers[did].(revoked := true));
    WaysInOnly(a, DropProvider(a, did));
  }

  lemma DropProviderHolds(a: Db, did: string)
    requires References(a) && CredentialsHold(a) && ProvidersOk(a.providers, a.profiles)
    requires did in a.providers && NobodyBy(a.sessions, a.providers[did].pid, DiscordSubject(did))
    ensures var b := DropProvider(a, did);
            References(b) && CredentialsHold(b) && ProvidersOk(b.providers, b.profiles)
  {
  }

  /** A new password and, in the same write, the one session that goes on under it. */
  function ChangePassword(db: Db, pid: string, p: Password, sid: string, s: Session): Db {
    db.(passwords := db.passwords[pid := p], sessions := db.sessions[sid := s], drawn := db.drawn + {s.token})
  }

  ghost predicate ChangeFits(a: Db, pid: string, p: Password, sid: string, s: Session) {
    && a.installed && pid in a.profiles && sid in a.sessions && a.sessions[sid].pid == s.pid == pid
    && !a.sessions[sid].revoked && !s.revoked && !p.revoked && s.credential == PasswordVersion(p.version)
    && s.token !in a.drawn && SessionBound(a.bindings, s)
    && forall i :: i in a.sessions && i != sid && a.sessions[i].pid == pid ==> a.sessions[i].revoked
  }

  lemma ChangePasswordCredentials(a: Db, pid: string, p: Password, sid: string, s: Session)
    requires ChangeFits(a, pid, p, sid, s) && CredentialsHold(a)
    ensures CredentialsHold(ChangePassword(a, pid, p, sid, s)) && MethodsKept(a, ChangePassword(a, pid, p, sid, s))
  {
    var b := ChangePassword(a, pid, p, sid, s);
    forall i | i in b.sessions && !b.sessions[i].revoked
      ensures CredentialActive(b, b.sessions[i].pid, b.sessions[i].credential)
    {
      if i != sid {
        assert CredentialActive(a, a.sessions[i].pid, a.sessions[i].credential);
      }
    }
  }

  lemma ChangePasswordSessions(a: Db, pid: string, p: Password, sid: string, s: Session)
    requires ChangeFits(a, pid, p, sid, s)
    requires SessionsBound(a.sessions, a.bindings) && TokensOk(a.sessions, a.drawn) && References(a)
    ensures var b := ChangePassword(a, pid, p, sid, s);
            && SessionsBound(b.sessions, b.bindings) && TokensOk(b.sessions, b.drawn) && References(b)
            && SessionsKept(a, b) && StaleStaysBut(a, b, sid)
  {
  }

  /** A change of passwords, of sessions and of what has been drawn. */
  lemma PasswordsAndSessionsOnly(a: Db, b: Db)
    requires Inv(a) && a.installed && b == a.(passwords := b.passwords, sessions := b.sessions, drawn := b.drawn)
    requires a.drawn <= b.drawn && SessionsBound(b.sessions, b.bindings) && TokensOk(b.sessions, b.drawn)
    requires References(b) && CredentialsHold(b) && SessionsKept(a, b) && MethodsKept(a, b)
    ensures Inv(b) && Evolves(a, b)
  {
    EvolvesItself(a);
    MoreDrawn(a.challenges, a.drawn, b.drawn);
    hide Mirror, UniqueLegacy, UniqueActive, OwnersHold, ProvidersOk, References, PasskeysBounded, CredentialsHold,
         MethodsKept;
    hide SessionsBound, TokensOk, VersionsRise, ChallengesOk, SessionsKept, UniqueNames, NotYet, StaleStays;
  }

  lemma ChangePasswordShape(a: Db, pid: string, p: Password, sid: string, s: Session)
    requires ChangeFits(a, pid, p, sid, s)
    ensures var b := ChangePassword(a, pid, p, sid, s);
            && a.installed && b == a.(passwords := b.passwords, sessions := b.sessions, drawn := b.drawn)
            && a.drawn <= b.drawn
  {
  }

  lemma ChangePasswordKeeps(a: Db, pid: string, p: Password, sid: string, s: Session)
    requires Inv(a) && ChangeFits(a, pid, p, sid, s)
    ensures var b := ChangePassword(a, pid, p, sid, s); Inv(b) && Evolves(a, b) && StaleStaysBut(a, b, sid)
  {
    hide *;
    SessionFacts(a);
    ChangePasswordCredentials(a, pid, p, sid, s);
    ChangePasswordSessions(a, pid, p, sid, s);
    ChangePasswordShape(a, pid, p, sid, s);
    PasswordsAndSessionsOnly(a, ChangePassword(a, pid, p, sid, s));
  }

  // ---------------------------------------------------------- versions together

  /** A session that is current on its binding. */
  predicate IsCurrent(bindings: Bindings, s: Session) {
    && !s.revoked && Key(s.pid, s.aid) in bindings && Active(bindings[Key(s.pid, s.aid)])
    && s.lv == bindings[Key(s.pid, s.aid)].version
  }

  /** Raises the version of every active binding of a profile, and with it the
      sessions that were current there. */
  function RaiseBoth(db: Db, pid: string): Db {
    db.(bindings := map k | k in db.bindings ::
          if k.pid == pid && Active(db.bindings[k]) then db.bindings[k].(version := db.bindings[k].version + 1)
          else db.bindings[k],
        sessions := map i | i in db.sessions ::
          if db.sessions[i].pid == pid && IsCurrent(db.bindings, db.sessions[i])
          then db.sessions[i].(lv := db.sessions[i].lv + 1)
          else db.sessions[i])
  }

  /** Exactly the current sessions stay current. */
  lemma RaiseBothCurrent(a: Db, pid: string, i: string)
    requires SessionsBound(a.sessions, a.bindings) && i in a.sessions && a.sessions[i].aid != 0
    ensures IsCurrent(RaiseBoth(a, pid).bindings, RaiseBoth(a, pid).sessions[i]) <==>
              IsCurrent(a.bindings, a.sessions[i])
  {
    assert SessionBound(a.bindings, a.sessions[i]);
  }

  lemma RaisedBindings(a: Db, pid: string)
    requires Mirror(a.links, a.profiles, a.bindings) && UniqueActive(a.bindings)
    requires (a.installed ==> OwnersHold(a.bindings, a.owners))
    ensures var b := RaiseBoth(a, pid);
            && Mirror(b.links, b.profiles, b.bindings) && UniqueActive(b.bindings)
            && VersionsRise(a.bindings, b.bindings)
            && (b.installed ==> OwnersHold(b.bindings, b.owners))
  {
    var b := RaiseBoth(a, pid);
    forall k | k in b.bindings ensures Mirrors(b.links, b.profiles, k, b.bindings[k]) {
      assert Mirrors(a.links, a.profiles, k, a.bindings[k]);
    }
    forall l | l in b.links ensures exists p :: MirroredBy(b.links, b.bindings, l, p) {
      var p :| MirroredBy(a.links, a.bindings, l, p);
      assert MirroredBy(b.links, b.bindings, l, p);
    }
  }

  lemma RaisedSessions(a: Db, pid: string)
    requires SessionsBound(a.sessions, a.bindings) && CredentialsHold(a) && TokensOk(a.sessions, a.drawn)
    ensures var b := RaiseBoth(a, pid);
            SessionsBound(b.sessions, b.bindings) && CredentialsHold(b) && TokensOk(b.sessions, b.drawn)
  {
    var b := RaiseBoth(a, pid);
    forall i | i in b.sessions ensures SessionBound(b.bindings, b.sessions[i]) {
      assert SessionBound(a.bindings, a.sessions[i]);
    }
  }

  lemma RaisedLeaves(a: Db, pid: string)
    requires References(a) && SessionsBound(a.sessions, a.bindings)
    ensures var b := RaiseBoth(a, pid);
            References(b) && SessionsKept(a, b) && StaleStays(a, b) && MethodsKept(a, b)
  {
  }

  lemma RaiseBothKeeps(a: Db, pid: string)
    requires Inv(a) && a.installed
    ensures var b := RaiseBoth(a, pid); Inv(b) && Evolves(a, b) && StaleStays(a, b)
  {
    RaisedBindings(a, pid);
    RaisedSessions(a, pid);
    RaisedLeaves(a, pid);
    EvolvesItself(a);
    hide Mirror, UniqueLegacy, UniqueActive, OwnersHold, ProvidersOk, References, PasskeysBounded, CredentialsHold,
          MethodsKept;
    hide SessionsBound, TokensOk, VersionsRise, ChallengesOk, SessionsKept, UniqueNames, NotYet, StaleStays;
  }

  // --------------------------------------------------------- challenges, names

  function PutChallenge(db: Db, id: string, c: Challenge): Db {
    db.(challenges := db.challenges[id := c], drawn := db.drawn + {id})
  }

  predicate ChallengeFits(db: Db, id: string, c: Challenge) {
    && 0 <= c.attempts <= 5 && (c.attempts == 5 && c.verifiedAt.None? ==> c.consumed)
    && (if id in db.challenges then ChallengeKept(db.challenges[id], c) else id !in db.drawn)
  }

  /** A change of challenges and of nothing else. */
  lemma ChallengesOnly(a: Db, b: Db)
    requires Inv(a) && a.installed && b == a.(challenges := b.challenges, drawn := b.drawn) && a.drawn <= b.drawn
    requires ChallengesOk(b.challenges, b.drawn) && ChallengesKept(a, b)
    ensures Inv(b) && Evolves(a, b) && StaleStays(a, b)
  {
    EvolvesItself(a);
    SameMethods(a, b);
    SameSessionsStale(a, b);
    MoreDrawnTokens(a.sessions, a.drawn, b.drawn);
    assert CredentialsHold(a) ==> CredentialsHold(b);
    hide Mirror, UniqueLegacy, UniqueActive, OwnersHold, ProvidersOk, PasskeysBounded, CredentialsHold, MethodsKept;
    hide SessionsBound, TokensOk, VersionsRise, ChallengesOk, UniqueNames, NotYet, StaleStays, ChallengesKept;
  }

  lemma MoreDrawnTokens(sessions: Sessions, drawn: set<string>, more: set<string>)
    requires TokensOk(sessions, drawn) && drawn <= more
    ensures TokensOk(sessions, more)
  {
  }

  lemma PutChallengeKeeps(a: Db, id: string, c: Challenge)
    requires Inv(a) && a.installed && ChallengeFits(a, id, c)
    ensures var b := PutChallenge(a, id, c); Inv(b) && Evolves(a, b) && StaleStays(a, b)
  {
    var b := PutChallenge(a, id, c);
    assert ChallengesOk(a.challenges, a.drawn);
    assert ChallengesOk(b.challenges, b.drawn) && ChallengesKept(a, b);
    hide Inv, Evolves;
    ChallengesOnly(a, b);
  }

  /** Clears out challenges long past. */
  function Sweep(db: Db, before: int): Db {
    db.(challenges := map c | c in db.challenges && db.challenges[c].expires >= before :: db.challenges[c])
  }

  lemma SweepKeeps(a: Db, before: int)
    requires Inv(a) && a.installed
    ensures Inv(Sweep(a, before)) && Evolves(a, Sweep(a, before)) && StaleStays(a, Sweep(a, before))
  {
    var b := Sweep(a, before);
    assert ChallengesOk(a.challenges, a.drawn);
    assert ChallengesOk(b.challenges, b.drawn) && ChallengesKept(a, b);
    hide Inv, Evolves;
    ChallengesOnly(a, b);
  }

  /** A name nobody else has, or none. */
  predicate NameFree(users: map<string, Option<string>>, pid: string, name: Option<string>) {
    name.Some? ==> forall p :: p in users && p != pid ==> users[p] != name
  }

  function PutName(db: Db, pid: string, name: Option<string>): Db {
    db.(users := db.users[pid := name])
  }

  lemma PutNameHolds(a: Db, pid: string, name: Option<string>)
    requires UniqueNames(a.users) && NameFree(a.users, pid, name) && CredentialsHold(a)
    ensures UniqueNames(PutName(a, pid, name).users) && CredentialsHold(PutName(a, pid, name))
  {
  }

  lemma PutNameKeeps(a: Db, pid: string, name: Option<string>)
    requires Inv(a) && a.installed && NameFree(a.users, pid, name)
    ensures var b := PutName(a, pid, name); Inv(b) && Evolves(a, b) && StaleStays(a, b)
  {
    var b := PutName(a, pid, name);
    EvolvesItself(a);
    SameMethods(a, b);
    SameSessionsStale(a, b);
    PutNameHolds(a, pid, name) by { WayFacts(a); assert UniqueNames(a.users); }
    hide Mirror, UniqueLegacy, UniqueActive, OwnersHold, ProvidersOk, PasskeysBounded, CredentialsHold, MethodsKept;
    hide SessionsBound, TokensOk, VersionsRise, ChallengesOk, UniqueNames, NotYet, StaleStays, NameFree;
  }
}
