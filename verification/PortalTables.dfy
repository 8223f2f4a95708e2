/** The tables behind sign-in: Discord links, profiles, their bindings to game
    accounts, recorded owners, credentials, sessions and challenges; what holds of
    them in every reachable state, and what every step leaves in place. */
module PortalTables {
  import opened Wrappers

  // ------------------------------------------------------------------- tables

  datatype Profile = Profile(legacy: Option<string>, disabled: bool)

  /** A Discord subject a profile signs in with. */
  datatype Provider = Provider(pid: string, revoked: bool)

  /** A row of the older link table, which other tools still read and write. */
  datatype Link = Link(did: string, aid: int, linkedAt: int, revokedAt: Option<int>)

  datatype Key = Key(pid: string, aid: int)

  /** A profile's hold on a game account. `legacy` names the link it mirrors;
      sessions on the account are good for one `version` only. */
  datatype Binding = Binding(legacy: Option<int>, linkedAt: int, revokedAt: Option<int>, version: int)

  datatype Password = Password(hash: string, version: int, revoked: bool)

  datatype Passkey = Passkey(pid: string, revoked: bool)

  /** The way in a session was opened by. */
  datatype Credential = DiscordSubject(did: string) | PasswordVersion(version: int) | PasskeyId(id: string)

  datatype Session = Session(
    token: string, pid: string, aid: int, lv: int, credential: Credential,
    authAt: int, createdAt: int, lastSeen: int, expires: int, revoked: bool)

  datatype Purpose = GameOnboard | GameLink | PasskeyRegister | PasskeyBootstrap | PasskeyLogin

  /** What was agreed when a challenge was made: the account and the profile a game
      code stands for, the session a registration belongs to, the name and the game
      code that a first passkey goes with. */
  datatype Context = Context(aid: int, pid: string, sid: string, name: string, ticket: string)

  datatype Challenge = Challenge(
    purpose: Purpose, binding: string, pid: Option<string>, context: Context, code: Option<string>,
    attempts: int, verifiedAt: Option<int>, consumed: bool, expires: int)

  type Links = map<int, Link>
  type Profiles = map<string, Profile>
  type Providers = map<string, Provider>
  type Bindings = map<Key, Binding>
  type Owners = map<int, Option<string>>
  type Passwords = map<string, Password>
  type Passkeys = map<string, Passkey>
  type Sessions = map<string, Session>
  type Challenges = map<string, Challenge>

  /** `installed` tells whether the credential tables exist. `drawn` holds every
      random value handed out so far; a new draw differs from all of them. */
  datatype Db = Db(
    installed: bool, links: Links, profiles: Profiles, providers: Providers, bindings: Bindings, owners: Owners,
    users: map<string, Option<string>>, passwords: Passwords, passkeys: Passkeys, sessions: Sessions,
    challenges: Challenges, drawn: set<string>)

  // --------------------------------------------------------------- invariants

  predicate Active(b: Binding) {
    b.revokedAt.None?
  }

  ghost predicate UniqueLegacy(profiles: Profiles) {
    forall p, q | p in profiles && q in profiles && profiles[p].legacy.Some? ::
      profiles[p].legacy == profiles[q].legacy ==> p == q
  }

  /** A binding and the link it names say the same. */
  predicate Mirrors(links: Links, profiles: Profiles, k: Key, b: Binding) {
    b.legacy.Some? ==>
      && b.legacy.value in links && k.pid in profiles
      && var l := links[b.legacy.value];
      l.aid == k.aid && profiles[k.pid].legacy == Some(l.did) && l.linkedAt == b.linkedAt && l.revokedAt == b.revokedAt
  }

  /** The binding that mirrors a link. */
  predicate MirroredBy(links: Links, bindings: Bindings, l: int, p: string)
    requires l in links
  {
    Key(p, links[l].aid) in bindings && bindings[Key(p, links[l].aid)].legacy == Some(l)
  }

  /** The two link tables in one-to-one correspondence: same account, same Discord
      identity, active exactly together. */
  ghost predicate Mirror(links: Links, profiles: Profiles, bindings: Bindings) {
    && (forall k :: k in bindings ==> Mirrors(links, profiles, k, bindings[k]))
    && (forall l :: l in links ==> exists p :: MirroredBy(links, bindings, l, p))
  }

  ghost predicate UniqueActive(bindings: Bindings) {
    forall j, k :: j in bindings && k in bindings && j.aid == k.aid && Active(bindings[j]) && Active(bindings[k]) ==>
      j == k
  }

  ghost predicate OwnersHold(bindings: Bindings, owners: Owners) {
    forall k :: k in bindings && Active(bindings[k]) ==> k.aid in owners && owners[k.aid] == Some(k.pid)
  }

  ghost predicate ProvidersOk(providers: Providers, profiles: Profiles) {
    && (forall d :: d in providers ==> providers[d].pid in profiles)
    && (forall c, d | c in providers && d in providers && !providers[c].revoked && !providers[d].revoked ::
          providers[c].pid == providers[d].pid ==> c == d)
  }

  predicate SessionBound(bindings: Bindings, s: Session) {
    s.aid != 0 ==> Key(s.pid, s.aid) in bindings && s.lv <= bindings[Key(s.pid, s.aid)].version
  }

  ghost predicate SessionsBound(sessions: Sessions, bindings: Bindings) {
    forall i :: i in sessions ==> SessionBound(bindings, sessions[i])
  }

  predicate CredentialActive(db: Db, pid: string, c: Credential) {
    match c
    case DiscordSubject(did) => did in db.providers && db.providers[did] == Provider(pid, false)
    case PasswordVersion(v) => pid in db.passwords && db.passwords[pid].version == v && !db.passwords[pid].revoked
    case PasskeyId(id) => id in db.passkeys && db.passkeys[id].pid == pid && !db.passkeys[id].revoked
  }

  /** Every session that is not revoked names a way in that its profile still has. */
  ghost predicate CredentialsHold(db: Db) {
    forall i :: i in db.sessions && !db.sessions[i].revoked ==>
      CredentialActive(db, db.sessions[i].pid, db.sessions[i].credential)
  }

  ghost predicate TokensOk(sessions: Sessions, drawn: set<string>) {
    && (forall i :: i in sessions ==> i in drawn && sessions[i].token in drawn)
    && (forall i, j :: i in sessions && j in sessions && sessions[i].token == sessions[j].token ==> i == j)
  }

  function ActiveKeys(passkeys: Passkeys, pid: string): set<string> {
    set k | k in passkeys && passkeys[k].pid == pid && !passkeys[k].revoked
  }

  ghost predicate PasskeysBounded(passkeys: Passkeys) {
    forall pid :: |ActiveKeys(passkeys, pid)| <= 8
  }

  ghost predicate ChallengesOk(challenges: Challenges, drawn: set<string>) {
    forall c :: c in challenges ==>
      && c in drawn && 0 <= challenges[c].attempts <= 5
      && (challenges[c].attempts == 5 && challenges[c].verifiedAt.None? ==> challenges[c].consumed)
  }

  ghost predicate UniqueNames(users: map<string, Option<string>>) {
    forall p, q :: p in users && q in users && users[p].Some? && users[p] == users[q] ==> p == q
  }

  /** Foreign keys. */
  ghost predicate References(db: Db) {
    && (forall k :: k in db.bindings ==> k.pid in db.profiles && k.aid > 0)
    && (forall i :: i in db.sessions ==> db.sessions[i].pid in db.profiles)
    && (forall k :: k in db.passkeys ==> db.passkeys[k].pid in db.profiles)
    && (forall p :: p in db.passwords ==> p in db.profiles)
  }

  /** Until the credential tables exist they hold nothing, and every binding mirrors
      a link. */
  ghost predicate NotYet(db: Db) {
    && db.owners == map[] && db.users == map[] && db.sessions == map[] && db.passwords == map[] && db.passkeys == map[]
    && db.challenges == map[] && forall k :: k in db.bindings ==> db.bindings[k].legacy.Some?
  }

  ghost predicate Inv(db: Db) {
    && UniqueLegacy(db.profiles) && Mirror(db.links, db.profiles, db.bindings) && UniqueActive(db.bindings)
    && ProvidersOk(db.providers, db.profiles) && References(db)
    && (db.installed ==> OwnersHold(db.bindings, db.owners)) && (!db.installed ==> NotYet(db))
    && SessionsBound(db.sessions, db.bindings) && CredentialsHold(db) && TokensOk(db.sessions, db.drawn)
    && PasskeysBounded(db.passkeys) && ChallengesOk(db.challenges, db.drawn) && UniqueNames(db.users)
  }

  // -------------------------------------------------------------------- steps

  /** Whom an account belongs to is written once, and null is an answer too. */
  ghost predicate OwnersKept(a: Db, b: Db) {
    a.installed ==> b.installed && forall n :: n in a.owners ==> n in b.owners && b.owners[n] == a.owners[n]
  }

  /** Versions only rise, and rise whenever a binding is touched. */
  ghost predicate VersionsRise(a: Bindings, b: Bindings) {
    forall k :: k in a ==>
      && k in b && b[k].legacy == a[k].legacy && a[k].version <= b[k].version
      && (a[k].revokedAt != b[k].revokedAt || a[k].linkedAt != b[k].linkedAt ==> a[k].version < b[k].version)
  }

  /** A session stays its profile's, a revoked one stays revoked, and a token that
      changes is a new one. */
  ghost predicate SessionsKept(a: Db, b: Db) {
    && (forall i :: i in a.sessions ==>
          && i in b.sessions && b.sessions[i].pid == a.sessions[i].pid
          && (a.sessions[i].revoked ==> b.sessions[i].revoked)
          && (b.sessions[i].token == a.sessions[i].token || b.sessions[i].token !in a.drawn))
    && (forall i :: i in b.sessions && i !in a.sessions ==> b.sessions[i].token !in a.drawn)
  }

  ghost predicate HasMethod(db: Db, pid: string) {
    || (pid in db.passwords && !db.passwords[pid].revoked)
    || ActiveKeys(db.passkeys, pid) != {}
    || (exists d :: d in db.providers && db.providers[d] == Provider(pid, false))
  }

  ghost predicate MethodsKept(a: Db, b: Db) {
    forall pid :: HasMethod(a, pid) ==> HasMethod(b, pid)
  }

  /** A challenge is spent once, and judged no more once it has been verified. */
  predicate ChallengeKept(c: Challenge, d: Challenge) {
    && c.attempts <= d.attempts
    && (c.consumed ==> d.consumed && d.attempts == c.attempts)
    && (c.verifiedAt.Some? ==> d.verifiedAt == c.verifiedAt && d.attempts == c.attempts)
  }

  ghost predicate ChallengesKept(a: Db, b: Db) {
    && (forall c :: c in a.challenges && c in b.challenges ==> ChallengeKept(a.challenges[c], b.challenges[c]))
    && (forall c :: c in b.challenges && c !in a.challenges ==> c !in a.drawn)
  }

  /** What every operation leaves in place. */
  ghost predicate Evolves(a: Db, b: Db) {
    && a.drawn <= b.drawn && OwnersKept(a, b) && VersionsRise(a.bindings, b.bindings) && SessionsKept(a, b)
    && MethodsKept(a, b) && ChallengesKept(a, b)
  }

  /** A session left behind by a change to its binding. */
  predicate Stale(db: Db, i: string)
    requires i in db.sessions
  {
    var s := db.sessions[i];
    s.aid != 0 && Key(s.pid, s.aid) in db.bindings && s.lv < db.bindings[Key(s.pid, s.aid)].version
  }

  ghost predicate StaleStays(a: Db, b: Db) {
    forall i :: i in a.sessions && Stale(a, i) ==>
      i in b.sessions && b.sessions[i].pid == a.sessions[i].pid && b.sessions[i].aid == a.sessions[i].aid && Stale(b, i)
  }

  /** Whatever touches a binding leaves every session on it behind that does not move
      in the same step. */
  lemma ChangeLeavesBehind(a: Db, b: Db, i: string)
    requires Inv(a) && Evolves(a, b) && i in a.sessions && a.sessions[i].aid != 0
    requires b.sessions[i].aid == a.sessions[i].aid && b.sessions[i].lv == a.sessions[i].lv
    requires var k := Key(a.sessions[i].pid, a.sessions[i].aid);
             a.bindings[k].revokedAt != b.bindings[k].revokedAt || a.bindings[k].linkedAt != b.bindings[k].linkedAt
    ensures Stale(b, i)
  {
    assert SessionBound(a.bindings, a.sessions[i]);
    assert VersionsRise(a.bindings, b.bindings);
  }

  lemma EvolvesItself(a: Db)
    ensures Evolves(a, a) && StaleStays(a, a)
  {
  }

  lemma ChallengesKeptChain(a: Db, b: Db, c: Db)
    requires ChallengesOk(a.challenges, a.drawn) && a.drawn <= b.drawn
    requires ChallengesKept(a, b) && ChallengesKept(b, c)
    ensures ChallengesKept(a, c)
  {
    forall k | k in a.challenges && k in c.challenges ensures ChallengeKept(a.challenges[k], c.challenges[k]) {
      assert k in b.challenges;
    }
  }

  lemma SessionsKeptChain(a: Db, b: Db, c: Db)
    requires a.drawn <= b.drawn && SessionsKept(a, b) && SessionsKept(b, c)
    ensures SessionsKept(a, c)
  {
    forall i | i in c.sessions && i !in a.sessions ensures c.sessions[i].token !in a.drawn {
      if i in b.sessions && c.sessions[i].token == b.sessions[i].token {
        assert b.sessions[i].token !in a.drawn;
      } else if i in b.sessions {
        assert c.sessions[i].token !in b.drawn;
      }
    }
  }

  lemma EvolvesChain(a: Db, b: Db, c: Db)
    requires Inv(a) && Evolves(a, b) && Evolves(b, c)
    ensures Evolves(a, c)
  {
    ChallengesKeptChain(a, b, c);
    SessionsKeptChain(a, b, c);
    hide HasMethod, ChallengesKept, SessionsKept, Inv;
  }

  // --------------------------------------------------------------------- runs

  /** A history of the database, one state after each operation. */
  ghost predicate History(states: seq<Db>) {
    && states != [] && (forall i :: 0 <= i < |states| ==> Inv(states[i]))
    && (forall i :: 0 < i < |states| ==> Evolves(states[i - 1], states[i]))
  }

  lemma {:induction false} HistoryEvolves(states: seq<Db>, m: nat, n: nat)
    requires History(states) && m <= n < |states|
    ensures Evolves(states[m], states[n])
    decreases n - m
  {
    hide Inv, Evolves;
    if m == n {
      EvolvesItself(states[m]);
    } else {
      HistoryEvolves(states, m, n - 1);
      EvolvesChain(states[m], states[n - 1], states[n]);
    }
  }

  /** An account belongs to the same profile for ever, and a profile that holds it
      is its owner. One recorded with no owner is never held. */
  lemma OwnerKept(states: seq<Db>, m: nat, n: nat, k: Key)
    requires History(states) && m <= n < |states| && states[m].installed && k.aid in states[m].owners
    ensures k.aid in states[n].owners && states[n].owners[k.aid] == states[m].owners[k.aid]
    ensures k in states[n].bindings && Active(states[n].bindings[k]) ==> states[m].owners[k.aid] == Some(k.pid)
  {
    HistoryEvolves(states, m, n);
    assert Inv(states[n]) && OwnersKept(states[m], states[n]);
  }

  /** The accounts whose old counts an identity's allowance is charged with. */
  function AccountKeys(db: Db, pid: string): set<int> {
    set n | n in db.owners && db.owners[n] == Some(pid)
  }

  ghost predicate TokenLives(db: Db, token: string) {
    exists i :: i in db.sessions && !db.sessions[i].revoked && db.sessions[i].token == token
  }

  /** A token that stopped opening a session never opens one again. */
  lemma TokenStaysDead(states: seq<Db>, m: nat, n: nat, token: string)
    requires History(states) && m <= n < |states| && token in states[m].drawn && !TokenLives(states[m], token)
    ensures !TokenLives(states[n], token)
  {
    HistoryEvolves(states, m, n);
    assert SessionsKept(states[m], states[n]);
  }

  /** A profile that can sign in can always sign in. */
  lemma MethodStays(states: seq<Db>, m: nat, n: nat, pid: string)
    requires History(states) && m <= n < |states| && HasMethod(states[m], pid)
    ensures HasMethod(states[n], pid)
  {
    hide HasMethod, Inv;
    HistoryEvolves(states, m, n);
    assert MethodsKept(states[m], states[n]);
  }

  /** The steps at which a code was judged against a challenge. */
  ghost function Judged(states: seq<Db>, c: string): nat {
    if |states| < 2 then 0
    else
      var a, b := states[|states| - 2].challenges, states[|states| - 1].challenges;
      Judged(states[..|states| - 1], c) + if c in a && c in b && a[c].attempts < b[c].attempts then 1 else 0
  }

  /** The steps at which a challenge was spent. */
  ghost function Spent(states: seq<Db>, c: string): nat {
    if |states| < 2 then 0
    else
      var a, b := states[|states| - 2].challenges, states[|states| - 1].challenges;
      Spent(states[..|states| - 1], c) + if c in a && c in b && !a[c].consumed && b[c].consumed then 1 else 0
  }

  lemma HistoryPrefix(states: seq<Db>)
    requires History(states) && |states| > 1
    ensures History(states[..|states| - 1]) && Evolves(states[|states| - 2], states[|states| - 1])
  {
    hide Inv, Evolves;
    var n := |states| - 1;
    assert Evolves(states[n - 1], states[n]);
  }

  lemma ChallengeStep(states: seq<Db>, c: string)
    requires History(states) && |states| > 1
    ensures var a, b := states[|states| - 2].challenges, states[|states| - 1].challenges;
            && (c in a && c in b ==> ChallengeKept(a[c], b[c]))
            && (c in b && c !in a ==> c !in states[|states| - 2].drawn)
  {
    assert Evolves(states[|states| - 2], states[|states| - 1]);
  }

  /** A challenge that has not appeared yet has no past. */
  lemma {:induction false} NoPast(states: seq<Db>, c: string)
    requires History(states) && c !in states[|states| - 1].drawn
    ensures Judged(states, c) == 0 && Spent(states, c) == 0
  {
    hide Evolves;
    if |states| > 1 {
      HistoryPrefix(states);
      assert states[|states| - 2].drawn <= states[|states| - 1].drawn by { DrawnGrows(states); }
      NoPast(states[..|states| - 1], c);
      assert Inv(states[|states| - 1]);
      hide Inv;
    }
  }

  lemma DrawnGrows(states: seq<Db>)
    requires History(states) && |states| > 1
    ensures states[|states| - 2].drawn <= states[|states| - 1].drawn
  {
    assert Evolves(states[|states| - 2], states[|states| - 1]);
  }

  lemma NothingYet(states: seq<Db>, c: string)
    requires History(states) && |states| == 1
    ensures Judged(states, c) == 0 && Spent(states, c) == 0
    ensures c in states[0].challenges ==> 0 <= states[0].challenges[c].attempts <= 5
  {
  }

  /** Over any run at most five codes are judged against a challenge, and it is spent
      at most once. */
  lemma {:induction false} ChallengeLimits(states: seq<Db>, c: string)
    requires History(states)
    ensures Judged(states, c) <= 5 && Spent(states, c) <= 1
    ensures var b := states[|states| - 1].challenges;
            c in b ==> Judged(states, c) <= b[c].attempts <= 5 && Spent(states, c) <= (if b[c].consumed then 1 else 0)
  {
    if |states| == 1 {
      NothingYet(states, c);
    } else {
      HistoryPrefix(states);
      ChallengeStep(states, c);
      assert Inv(states[|states| - 1]);
      assert states[..|states| - 1][|states| - 2] == states[|states| - 2];
      ChallengeLimits(states[..|states| - 1], c);
      if c !in states[|states| - 2].drawn {
        NoPast(states[..|states| - 1], c);
      }
      hide History, Evolves;
    }
  }

  // --------------------------------------------------------------- connection

  /** A connection to the database. `begun` is the state at BEGIN IMMEDIATE while a
      transaction is open. */
  class Connection {
    var db: Db
    var begun: Option<Db>

    constructor (db: Db)
      ensures this.db == db && begun == None && Idle()
    {
      this.db, begun := db, None;
    }

    /** No transaction is open. */
    predicate Idle()
      reads this`begun
    {
      begun.None?
    }

    lemma IsIdle()
      ensures Idle() <==> begun.None?
    {
    }

    /** Fails when a transaction is already open. */
    method Begin() returns (ok: bool)
      modifies this
      ensures db == old(db) && ok == old(Idle())
      ensures begun == if ok then Some(db) else old(begun)
    {
      ok := begun.None?;
      if ok {
        begun := Some(db);
      }
    }

    method Commit()
      modifies this
      ensures db == old(db) && begun == None && Idle()
    {
      begun := None;
    }

    method Rollback()
      modifies this
      ensures Idle() && begun == None && db == if old(begun).Some? then old(begun).value else old(db)
    {
      if begun.Some? {
        db := begun.value;
      }
      begun := None;
    }
  }
}
