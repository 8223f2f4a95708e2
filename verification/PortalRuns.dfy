/** Runs of the portal: each operation on the sign-in tables as one step, and what
    holds over any sequence of them that starts from a migrated database. */
module PortalRuns {
  import opened Wrappers
  import opened PortalTables
  import opened PortalIdentity
  import PortalBackfill
  import opened PortalSteps
  import opened PortalSessions
  import opened PortalAccounts
  import TransferRelink

  // ----------------------------------------------------------------- operations

  /** What has been done, with the choices that were made in doing it. A request that
      was refused changes nothing and is not among them. */
  datatype Op =
    | Installs(owners: Owners)
    | Looks(sid: string, now: int)
    | Enters(pid: string, credential: Credential, sid: string, token: string, authAt: int, aid: int, now: int)
    | SetsPassword(c: Current, name: string, hash: string, token: string, now: int)
    | Renames(c: Current, name: string, now: int)
    | DropsWay(c: Current, way: Way, now: int)
    | Switches(c: Current, aid: int, token: string, now: int)
    | Ends(target: string)
    | LinksDiscord(c: Current, did: string, now: int)
    | Unlinks(c: Current, aid: int, survivor: int, now: int)
    | Poses(id: string, challenge: Challenge, now: int)
    | Judges(id: string, binding: string, purpose: Purpose, profile: Option<string>, good: bool, now: int)
    | Spends(id: string, binding: string, purpose: Purpose, profile: Option<string>, now: int)
    | Registers(c: Current, key: string, token: string, now: int)
    | LinksGame(c: Current, id: string, binding: string, now: int)
    | FoundsByPassword(id: string, binding: string, name: string, hash: string, sid: string, token: string, now: int)
    | FoundsByPasskey(id: string, binding: string, name: string, key: string, sid: string, token: string, now: int)
    | Edits(change: Change, newPid: string, pid: string)
    | Relinks(item: TransferRelink.Item, row: int, newPid: string, pid: string, now: int)

  ghost predicate InstallStep(a: Db, b: Db, owners: Owners) {
    && !a.installed && owners.Keys == AccountsOf(a.bindings)
    && (forall n :: n in owners ==> IsOwner(a.bindings, n, owners[n]))
    && b == a.(installed := true, owners := owners, users := map p | p in a.profiles :: None)
  }

  ghost predicate LookStep(a: Db, b: Db, sid: string, now: int) {
    sid in a.sessions && Usable(a, a.sessions[sid], now) && b == Touched(a, sid, now)
  }

  ghost predicate EnterStep(a: Db, b: Db, pid: string, c: Credential, sid: string, token: string, authAt: int,
        aid: int, now: int) {
    && a.installed && MayEnter(a, pid, c, Some(aid)) && sid !in a.drawn && token !in a.drawn
    && (aid != 0 ==> Key(pid, aid) in a.bindings)
    && b == SessionMade(a, pid, c, sid, token, authAt, aid, now)
  }

  ghost predicate PasswordStep(a: Db, b: Db, c: Current, name: string, hash: string, token: string, now: int) {
    && Recent(a, c.pid, c, now) && (c.pid in a.users ==> NameFree(a.users, c.pid, Some(name)))
    && token !in a.drawn && b == PasswordSet(a, c, name, hash, token, now)
  }

  ghost predicate RenameStep(a: Db, b: Db, c: Current, name: string, now: int) {
    && Recent(a, c.pid, c, now) && (c.pid in a.users ==> NameFree(a.users, c.pid, Some(name)))
    && b == Named(a, c.pid, name)
  }

  ghost predicate DropStep(a: Db, b: Db, c: Current, way: Way, now: int) {
    Recent(a, c.pid, c, now) && MethodCount(a, c.pid) > 1 && WayGone(a, b, c.pid, way)
  }

  /** Whoever moves a session has come in by it. */
  ghost predicate SwitchStep(a: Db, b: Db, c: Current, aid: int, token: string, now: int) {
    && SignedIn(a, c, now) && Switchable(a, c, aid, now) && token !in a.drawn
    && Key(c.pid, aid) in a.bindings && b == Switched(a, c.sid, aid, token)
  }

  ghost predicate EndStep(a: Db, b: Db, target: string) {
    target in a.sessions && b == SignOut(a, {target})
  }

  ghost predicate DiscordStep(a: Db, b: Db, c: Current, did: string, now: int) {
    && Recent(a, c.pid, c, now) && (did in a.providers ==> a.providers[did].pid == c.pid)
    && (forall d :: d in a.providers && a.providers[d] == Provider(c.pid, false) ==> d == did)
    && b == PutProvider(a, did, Provider(c.pid, false))
  }

  ghost predicate UnlinkStep(a: Db, b: Db, c: Current, aid: int, survivor: int, now: int) {
    && SignedIn(a, c, now) && Recent(a, c.pid, c, now)
    && Key(c.pid, aid) in a.bindings && Active(a.bindings[Key(c.pid, aid)]) && LinkKnown(a, Key(c.pid, aid))
    && var m := LetGoAll(a, c, aid, now);
    if c.aid != aid then b == m
    else
      && IsDefault(m, c.pid, survivor) && c.sid in m.sessions && m.sessions[c.sid].pid == c.pid
      && (survivor != 0 ==> Key(c.pid, survivor) in m.bindings) && b == Repointed(m, c.sid, survivor)
  }

  ghost predicate PoseStep(a: Db, b: Db, id: string, c: Challenge, now: int) {
    && a.installed && id !in a.drawn && c.attempts == 0 && c.verifiedAt.None? && !c.consumed
    && c.expires == now + CHALLENGE_TTL && b == PutChallenge(Sweep(a, now - 86400), id, c)
  }

  ghost predicate JudgeStep(a: Db, b: Db, id: string, binding: string, purpose: Purpose, pid: Option<string>,
        good: bool, now: int) {
    && a.installed && Open(a, id, binding, purpose, pid, now)
    && var c := a.challenges[id];
    && c.verifiedAt.None? && c.attempts < MAX_ATTEMPTS && b == PutChallenge(a, id, Tried(c, good, now))
  }

  ghost predicate SpendStep(a: Db, b: Db, id: string, binding: string, purpose: Purpose, pid: Option<string>,
        now: int) {
    a.installed && Open(a, id, binding, purpose, pid, now) && b == Consumed(a, id)
  }

  ghost predicate RegisterStep(a: Db, b: Db, c: Current, key: string, token: string, now: int) {
    && Recent(a, c.pid, c, now) && token !in a.drawn && key !in a.passkeys && |ActiveKeys(a.passkeys, c.pid)| < 8
    && b == Registered(a, c, key, token)
  }

  ghost predicate LinkStep(a: Db, b: Db, c: Current, id: string, binding: string, now: int) {
    && SignedIn(a, c, now) && Recent(a, c.pid, c, now) && TicketReady(a, id, binding, GameLink, Some(c.pid), now)
    && c.sid in a.sessions && a.sessions[c.sid].pid == c.pid
    && var k := AccountOf(a, id);
    && MayTake(a, Key(c.pid, k.aid)) && LinkKnown(a, Key(c.pid, k.aid)) && b == Joined(a, c, k.aid, id, now)
  }

  /** A profile founded on a game code, with whatever way in it was given. */
  ghost predicate MayFoundOn(a: Db, id: string, binding: string, name: string, sid: string, token: string, now: int) {
    && a.installed && TicketReady(a, id, binding, GameOnboard, None, now) && MayFound(a, AccountOf(a, id), name)
    && sid !in a.drawn && token !in a.drawn && LinkKnown(WithProfile(a, AccountOf(a, id).pid), AccountOf(a, id))
    && AccountOf(a, id) in Founded(a, AccountOf(a, id), name, id, now).bindings
  }

  ghost predicate PasswordFoundStep(a: Db, b: Db, id: string, binding: string, name: string, hash: string,
        sid: string, token: string, now: int) {
    && MayFoundOn(a, id, binding, name, sid, token, now)
    && var k := AccountOf(a, id);
    b == SessionMade(PutPassword(Founded(a, k, name, id, now), k.pid, hash, 1), k.pid, PasswordVersion(1), sid, token,
                     now, k.aid, now)
  }

  ghost predicate PasskeyFoundStep(a: Db, b: Db, id: string, binding: string, name: string, key: string, sid: string,
        token: string, now: int) {
    && MayFoundOn(a, id, binding, name, sid, token, now) && key !in a.passkeys
    && var k := AccountOf(a, id);
    b == SessionMade(PutPasskey(Founded(a, k, name, id, now), key, Passkey(k.pid, false)), k.pid, PasskeyId(key), sid,
                     token, now, k.aid, now)
  }

  /** Whatever a caller wrote between begin and finish, when finish accepted it. */
  ghost predicate EditStep(a: Db, b: Db, change: Change, newPid: string, pid: string) {
    && newPid !in a.profiles && IsChosen(a.profiles, change.did, newPid, pid)
    && Acceptable(a, b.links, change, pid) && Finished(a, b, change.did, pid)
  }

  ghost predicate Step(a: Db, b: Db, op: Op) {
    match op
    case Installs(owners) => InstallStep(a, b, owners)
    case Looks(sid, now) => LookStep(a, b, sid, now)
    case Enters(pid, c, sid, token, authAt, aid, now) => EnterStep(a, b, pid, c, sid, token, authAt, aid, now)
    case SetsPassword(c, name, hash, token, now) => PasswordStep(a, b, c, name, hash, token, now)
    case Renames(c, name, now) => RenameStep(a, b, c, name, now)
    case DropsWay(c, way, now) => DropStep(a, b, c, way, now)
    case Switches(c, aid, token, now) => SwitchStep(a, b, c, aid, token, now)
    case Ends(target) => EndStep(a, b, target)
    case LinksDiscord(c, did, now) => DiscordStep(a, b, c, did, now)
    case Unlinks(c, aid, survivor, now) => UnlinkStep(a, b, c, aid, survivor, now)
    case Poses(id, challenge, now) => PoseStep(a, b, id, challenge, now)
    case Judges(id, binding, purpose, pid, good, now) => JudgeStep(a, b, id, binding, purpose, pid, good, now)
    case Spends(id, binding, purpose, pid, now) => SpendStep(a, b, id, binding, purpose, pid, now)
    case Registers(c, key, token, now) => RegisterStep(a, b, c, key, token, now)
    case LinksGame(c, id, binding, now) => LinkStep(a, b, c, id, binding, now)
    case FoundsByPassword(id, binding, name, hash, sid, token, now) =>
      PasswordFoundStep(a, b, id, binding, name, hash, sid, token, now)
    case FoundsByPasskey(id, binding, name, key, sid, token, now) =>
      PasskeyFoundStep(a, b, id, binding, name, key, sid, token, now)
    case Edits(change, newPid, pid) => EditStep(a, b, change, newPid, pid)
    case Relinks(item, row, newPid, pid, now) => TransferRelink.ItemStep(a, b, item, row, newPid, pid, now)
  }

  // ------------------------------------------------------- what every step keeps

  /** The invariant, what must stay in place, and that no stale session revives. */
  ghost predicate Sound(a: Db, b: Db) {
    Inv(b) && Evolves(a, b) && StaleStays(a, b)
  }

  lemma InstallStepKeeps(a: Db, b: Db, owners: Owners)
    requires Inv(a) && InstallStep(a, b, owners)
    ensures Sound(a, b)
  {
    assert a.sessions == map[] by { NotYetOpen(a); }
    hide Inv, Evolves, IsOwner, AccountsOf;
    InstalledKeeps(a, owners);
  }

  lemma NotYetOpen(a: Db)
    requires Inv(a) && !a.installed
    ensures a.sessions == map[]
  {
  }

  lemma LookStepKeeps(a: Db, b: Db, sid: string, now: int)
    requires Inv(a) && LookStep(a, b, sid, now)
    ensures Sound(a, b)
  {
    hide Inv, Evolves, StaleStays, Usable, Touched;
    TouchedKeeps(a, sid, now);
  }

  lemma EnterStepKeeps(a: Db, b: Db, pid: string, c: Credential, sid: string, token: string, authAt: int, aid: int,
        now: int)
    requires Inv(a) && EnterStep(a, b, pid, c, sid, token, authAt, aid, now)
    ensures Sound(a, b)
  {
    hide Inv, Evolves, StaleStays, AccountOpen, CredentialActive, SessionMade;
    SessionMadeKeeps(a, pid, c, sid, token, authAt, aid, now);
  }

  lemma PasswordStepKeeps(a: Db, b: Db, c: Current, name: string, hash: string, token: string, now: int)
    requires Inv(a) && PasswordStep(a, b, c, name, hash, token, now)
    ensures Sound(a, b)
  {
    hide Inv, Evolves, StaleStays, Recent, NameFree, PasswordSet;
    PasswordSetKeeps(a, c, name, hash, token, now);
  }

  lemma RenameStepKeeps(a: Db, b: Db, c: Current, name: string, now: int)
    requires Inv(a) && RenameStep(a, b, c, name, now)
    ensures Sound(a, b)
  {
    hide Inv, Evolves, StaleStays, Recent, NameFree, Named;
    RecentFacts(a, c, now);
    NamedKeeps(a, c.pid, name);
  }

  lemma DropStepKeeps(a: Db, b: Db, c: Current, way: Way, now: int)
    requires Inv(a) && DropStep(a, b, c, way, now)
    ensures Sound(a, b)
  {
    hide Inv, Evolves, StaleStays, Recent, HasWay, WayRemoved, MethodCount;
    RecentFacts(a, c, now);
    var did :| HasWay(a, c.pid, way)
               && (way.DiscordWay? ==> did in a.providers && a.providers[did] == Provider(c.pid, false))
               && b == WayRemoved(a, c.pid, way, did);
    WayRemovedKeeps(a, c.pid, way, did);
  }

  lemma SwitchStepKeeps(a: Db, b: Db, c: Current, aid: int, token: string, now: int)
    requires Inv(a) && SwitchStep(a, b, c, aid, token, now)
    ensures Sound(a, b)
  {
    SignedInIsNotStale(a, c, now);
    hide Inv, Evolves, StaleStays, SignedIn, StaleStaysBut, AccountOpen, CredentialActive, Switched, Stale;
    SwitchedKeeps(a, c, aid, token, now);
    StaleButNone(a, b, c.sid);
  }

  lemma EndStepKeeps(a: Db, b: Db, target: string)
    requires Inv(a) && EndStep(a, b, target)
    ensures Sound(a, b)
  {
    hide Inv, Evolves, StaleStays, SignOut;
    SignOutKeeps(a, {target});
  }

  lemma DiscordStepKeeps(a: Db, b: Db, c: Current, did: string, now: int)
    requires Inv(a) && DiscordStep(a, b, c, did, now)
    ensures Sound(a, b)
  {
    hide Inv, Evolves, StaleStays, Recent, PutProvider;
    RecentFacts(a, c, now);
    LinkProviderKeeps(a, did, c.pid);
  }

  lemma UnlinkStepKeeps(a: Db, b: Db, c: Current, aid: int, survivor: int, now: int)
    requires Inv(a) && UnlinkStep(a, b, c, aid, survivor, now)
    ensures Sound(a, b)
  {
    hide Inv, Evolves, StaleStays, StaleStaysBut, SignedIn, Recent, Active, LetGoAll, Repointed, IsDefault, LinkKnown;
    RecentFacts(a, c, now);
    LetGoAllKeeps(a, c, aid, now);
    var m := LetGoAll(a, c, aid, now);
    if c.aid == aid {
      RepointedKeeps(m, c.sid, survivor);
      EvolvesChain(a, m, b);
    }
    ActorMayMove(a, m, b, c, now);
  }

  lemma PoseStepKeeps(a: Db, b: Db, id: string, c: Challenge, now: int)
    requires Inv(a) && PoseStep(a, b, id, c, now)
    ensures Sound(a, b)
  {
    ChallengeFacts(a);
    hide Inv, Evolves, StaleStays;
    var m := Sweep(a, now - 86400);
    SweepKeeps(a, now - 86400);
    assert id !in m.challenges;
    PutChallengeKeeps(m, id, c);
    EvolvesChain(a, m, b);
    StaleChain(a, m, b);
  }

  lemma JudgeStepKeeps(a: Db, b: Db, id: string, binding: string, purpose: Purpose, pid: Option<string>, good: bool,
        now: int)
    requires Inv(a) && JudgeStep(a, b, id, binding, purpose, pid, good, now)
    ensures Sound(a, b)
  {
    ChallengeFacts(a);
    hide Inv, Evolves, StaleStays;
    PutChallengeKeeps(a, id, Tried(a.challenges[id], good, now));
  }

  lemma SpendStepKeeps(a: Db, b: Db, id: string, binding: string, purpose: Purpose, pid: Option<string>, now: int)
    requires Inv(a) && SpendStep(a, b, id, binding, purpose, pid, now)
    ensures Sound(a, b)
  {
    hide Inv, Evolves, StaleStays, Consumed;
    ConsumedKeeps(a, id);
  }

  lemma RegisterStepKeeps(a: Db, b: Db, c: Current, key: string, token: string, now: int)
    requires Inv(a) && RegisterStep(a, b, c, key, token, now)
    ensures Sound(a, b)
  {
    hide Inv, Evolves, StaleStays, Recent, ActiveKeys, Registered;
    RegisteredKeeps(a, c, key, token, now);
  }

  lemma LinkStepKeeps(a: Db, b: Db, c: Current, id: string, binding: string, now: int)
    requires Inv(a) && LinkStep(a, b, c, id, binding, now)
    ensures Sound(a, b) && id in b.challenges && b.challenges[id].consumed
  {
    hide Inv, Evolves, StaleStays, SignedIn, Recent, TicketReady, MayTake, LinkKnown, Joined, AccountOf, Active;
    ReadyIsKnown(a, id, binding, GameLink, Some(c.pid), now);
    JoinedKeeps(a, c, AccountOf(a, id).aid, id, now);
  }

  /** A founded profile with its way in goes on to its first session. */
  lemma FirstSession(a: Db, n: Db, b: Db, k: Key, id: string, c: Credential, sid: string, token: string, now: int)
    requires ReadyToEnter(a, n, k, id) && Inv(a) && CredentialActive(n, k.pid, c) && sid !in n.drawn
    requires token !in n.drawn
    requires k in n.bindings && b == SessionMade(n, k.pid, c, sid, token, now, k.aid, now)
    ensures Sound(a, b) && id in b.challenges && b.challenges[id].consumed
  {
    hide Inv, Evolves, StaleStays, CredentialActive, SessionMade, ProfileActive;
    SessionMadeKeeps(n, k.pid, c, sid, token, now, k.aid, now);
    EvolvesChain(a, n, b);
    StaleChain(a, n, b);
    MadeLeavesChallenges(n, k.pid, c, sid, token, now, k.aid, now);
  }

  lemma MadeLeavesChallenges(a: Db, pid: string, c: Credential, sid: string, token: string, authAt: int, aid: int,
        now: int)
    requires aid != 0 ==> Key(pid, aid) in a.bindings
    ensures SessionMade(a, pid, c, sid, token, authAt, aid, now).challenges == a.challenges
  {
  }

  lemma FoundingIsReady(a: Db, id: string, binding: string, name: string, sid: string, token: string, now: int)
    requires Inv(a) && MayFoundOn(a, id, binding, name, sid, token, now)
    ensures id in a.challenges && id in a.drawn && !a.challenges[id].consumed
    ensures a.installed && MayFound(a, AccountOf(a, id), name) && sid !in a.drawn && token !in a.drawn
  {
    ChallengeFacts(a);
    hide Inv, MayFound, AccountOf, LinkKnown, Founded;
  }

  lemma PasswordFoundStepKeeps(a: Db, b: Db, id: string, binding: string, name: string, hash: string, sid: string,
        token: string, now: int)
    requires Inv(a) && PasswordFoundStep(a, b, id, binding, name, hash, sid, token, now)
    ensures Sound(a, b) && id in b.challenges && b.challenges[id].consumed
  {
    hide Inv, Sound, MayFound, AccountOf, LinkKnown, Founded, MayFoundOn, ReadyToEnter, SessionMade;
    FoundingIsReady(a, id, binding, name, sid, token, now);
    var k := AccountOf(a, id);
    PasswordIsReady(a, k, name, hash, id, now);
    var n := PutPassword(Founded(a, k, name, id, now), k.pid, hash, 1);
    ReadyDrawn(a, n, k, id);
    FirstSession(a, n, b, k, id, PasswordVersion(1), sid, token, now);
  }

  lemma PasskeyFoundStepKeeps(a: Db, b: Db, id: string, binding: string, name: string, key: string, sid: string,
        token: string, now: int)
    requires Inv(a) && PasskeyFoundStep(a, b, id, binding, name, key, sid, token, now)
    ensures Sound(a, b) && id in b.challenges && b.challenges[id].consumed
  {
    hide Inv, Sound, MayFound, AccountOf, LinkKnown, Founded, MayFoundOn, ReadyToEnter, SessionMade;
    FoundingIsReady(a, id, binding, name, sid, token, now);
    var k := AccountOf(a, id);
    KeyedIsReady(a, k, name, key, id, now);
    var n := PutPasskey(Founded(a, k, name, id, now), key, Passkey(k.pid, false));
    ReadyDrawn(a, n, k, id);
    FirstSession(a, n, b, k, id, PasskeyId(key), sid, token, now);
  }

  lemma ReadyDrawn(a: Db, n: Db, k: Key, id: string)
    requires ReadyToEnter(a, n, k, id)
    ensures n.drawn == a.drawn && k in n.bindings
  {
    hide Inv, Evolves, StaleStays;
  }

  lemma EditStepKeeps(a: Db, b: Db, change: Change, newPid: string, pid: string)
    requires Inv(a) && EditStep(a, b, change, newPid, pid)
    ensures Sound(a, b)
  {
    hide Inv, Evolves, StaleStays, Changed, Rebound, PortalIdentity.Claimed, LinksValid, ProfileReady, GrantsAllowed,
         PlacesFree, IsChosen;
    if Changed(a.links, b.links) == {} {
      NothingChanged(a.links, b.links);
      EvolvesItself(a);
    } else {
      FinishedKeeps(a, b, change, newPid, pid);
    }
  }

  /** Every operation keeps the invariant and what must stay in place, and all but the
      relinking of transfers leave stale sessions stale. */
  lemma StepKeeps(a: Db, b: Db, op: Op)
    requires Inv(a) && Step(a, b, op)
    ensures Inv(b) && Evolves(a, b) && (op.Relinks? || StaleStays(a, b))
  {
    if op.Relinks? {
      hide *;
      TransferRelink.ItemStepKeeps(a, b, op.item, op.row, op.newPid, op.pid, op.now) by { RelinkOf(a, b, op); }
    } else {
      OtherStepKeeps(a, b, op);
      hide Inv, Evolves, StaleStays, Step;
    }
  }

  lemma RelinkOf(a: Db, b: Db, op: Op)
    requires Step(a, b, op) && op.Relinks?
    ensures TransferRelink.ItemStep(a, b, op.item, op.row, op.newPid, op.pid, op.now)
  {
    hide TransferRelink.ItemStep;
  }

  lemma OtherStepKeeps(a: Db, b: Db, op: Op)
    requires Inv(a) && Step(a, b, op) && !op.Relinks?
    ensures Sound(a, b)
  {
    hide Inv, Sound, InstallStep, LookStep, EnterStep, PasswordStep, RenameStep, DropStep, SwitchStep, EndStep;
    hide DiscordStep, UnlinkStep, PoseStep, JudgeStep, SpendStep, RegisterStep, LinkStep, PasswordFoundStep;
    hide PasskeyFoundStep, EditStep, TransferRelink.ItemStep;
    match op {
      case Installs(owners) => InstallStepKeeps(a, b, owners);
      case Looks(sid, now) => LookStepKeeps(a, b, sid, now);
      case Enters(pid, c, sid, token, authAt, aid, now) => EnterStepKeeps(a, b, pid, c, sid, token, authAt, aid, now);
      case SetsPassword(c, name, hash, token, now) => PasswordStepKeeps(a, b, c, name, hash, token, now);
      case Renames(c, name, now) => RenameStepKeeps(a, b, c, name, now);
      case DropsWay(c, way, now) => DropStepKeeps(a, b, c, way, now);
      case Switches(c, aid, token, now) => SwitchStepKeeps(a, b, c, aid, token, now);
      case Ends(target) => EndStepKeeps(a, b, target);
      case LinksDiscord(c, did, now) => DiscordStepKeeps(a, b, c, did, now);
      case Unlinks(c, aid, survivor, now) => UnlinkStepKeeps(a, b, c, aid, survivor, now);
      case Poses(id, challenge, now) => PoseStepKeeps(a, b, id, challenge, now);
      case Judges(id, binding, purpose, pid, good, now) => JudgeStepKeeps(a, b, id, binding, purpose, pid, good, now);
      case Spends(id, binding, purpose, pid, now) => SpendStepKeeps(a, b, id, binding, purpose, pid, now);
      case Registers(c, key, token, now) => RegisterStepKeeps(a, b, c, key, token, now);
      case LinksGame(c, id, binding, now) => LinkStepKeeps(a, b, c, id, binding, now);
      case FoundsByPassword(id, binding, name, hash, sid, token, now) =>
        PasswordFoundStepKeeps(a, b, id, binding, name, hash, sid, token, now);
      case FoundsByPasskey(id, binding, name, key, sid, token, now) =>
        PasskeyFoundStepKeeps(a, b, id, binding, name, key, sid, token, now);
      case Edits(change, newPid, pid) => EditStepKeeps(a, b, change, newPid, pid);
    }
  }

  // ----------------------------------------------------------------------- runs

  /** A migrated database in which nobody has signed in yet. */
  ghost predicate IsStart(db: Db) {
    PortalBackfill.Schema(db) && PortalBackfill.Backfilled(db) && !db.installed && NotYet(db)
  }

  /** Any operations in any order, and the states they lead through. */
  ghost predicate IsRun(states: seq<Db>, ops: seq<Op>) {
    && |states| == |ops| + 1 && IsStart(states[0])
    && forall n :: 0 <= n < |ops| ==> Step(states[n], states[n + 1], ops[n])
  }

  lemma RunGrows(states: seq<Db>, ops: seq<Op>, b: Db, op: Op)
    requires IsRun(states, ops) && Step(states[|ops|], b, op)
    ensures IsRun(states + [b], ops + [op])
  {
    hide Step, IsStart;
    var s, o := states + [b], ops + [op];
    forall n | 0 <= n < |o| ensures Step(s[n], s[n + 1], o[n]) {
      if n < |ops| {
        assert Step(states[n], states[n + 1], ops[n]);
      }
    }
  }

  lemma RunStep(states: seq<Db>, ops: seq<Op>, n: nat)
    requires IsRun(states, ops) && n < |ops|
    ensures Step(states[n], states[n + 1], ops[n])
  {
    hide Step, IsStart;
  }

  lemma {:induction false} RunIsSound(states: seq<Db>, ops: seq<Op>, n: nat)
    requires IsRun(states, ops) && n <= |ops|
    ensures Inv(states[n])
  {
    hide Step, Inv, PortalBackfill.Schema, PortalBackfill.Backfilled, NotYet;
    if n == 0 {
      PortalBackfill.MigratedIsSound(states[0]);
    } else {
      hide IsStart;
      RunIsSound(states, ops, n - 1);
      RunStep(states, ops, n - 1);
      StepKeeps(states[n - 1], states[n], ops[n - 1]);
    }
  }

  /** The invariant holds at every state of a run, and each step leaves in place what
      it must. */
  lemma RunIsHistory(states: seq<Db>, ops: seq<Op>)
    requires IsRun(states, ops)
    ensures History(states)
  {
    hide Inv, Evolves, Step, IsStart;
    forall n | 0 <= n < |states| ensures Inv(states[n]) {
      RunIsSound(states, ops, n);
    }
    forall n | 0 < n < |states| ensures Evolves(states[n - 1], states[n]) {
      RunStep(states, ops, n - 1);
      StepKeeps(states[n - 1], states[n], ops[n - 1]);
    }
  }

  /** A run of these operations ends here. */
  ghost predicate Reaches(states: seq<Db>, ops: seq<Op>, db: Db) {
    IsRun(states, ops) && states[|ops|] == db
  }

  lemma ReachedIsSound(states: seq<Db>, ops: seq<Op>, db: Db)
    requires Reaches(states, ops, db)
    ensures Inv(db)
  {
    hide IsStart, Step, Inv;
    RunIsSound(states, ops, |ops|);
  }

  lemma ReachFurther(states: seq<Db>, ops: seq<Op>, a: Db, b: Db, op: Op)
    requires Reaches(states, ops, a) && Step(a, b, op)
    ensures Reaches(states + [b], ops + [op], b)
  {
    hide IsStart, Step;
    RunGrows(states, ops, b, op);
  }

  /** A migration of a database without credential tables is where a run starts. */
  lemma MigrationStarts(a: Db, b: Db, newPids: map<string, string>, s: PortalBackfill.Summary)
    requires !a.installed && NotYet(a) && PortalBackfill.Added(a, b, newPids, s)
    requires PortalBackfill.Schema(b) && PortalBackfill.Backfilled(b)
    ensures IsStart(b)
  {
    hide PortalBackfill.Schema, PortalBackfill.Backfilled;
  }

  /** An account belongs to the same profile for ever, and a profile that holds it
      is its owner. One recorded with no owner is never held. */
  lemma OwnershipIsForever(states: seq<Db>, ops: seq<Op>, m: nat, n: nat, k: Key)
    requires IsRun(states, ops) && m <= n <= |ops| && states[m].installed && k.aid in states[m].owners
    ensures k.aid in states[n].owners && states[n].owners[k.aid] == states[m].owners[k.aid]
    ensures k in states[n].bindings && Active(states[n].bindings[k]) ==> states[m].owners[k.aid] == Some(k.pid)
  {
    hide History, Step, IsStart;
    RunIsHistory(states, ops);
    OwnerKept(states, m, n, k);
  }

  /** An account is charged to one identity, once and for all. */
  lemma ChargedToOne(states: seq<Db>, ops: seq<Op>, m: nat, n: nat, aid: int, p: string, q: string)
    requires IsRun(states, ops) && m <= n <= |ops| && states[m].installed && aid in AccountKeys(states[m], p)
    ensures aid in AccountKeys(states[n], p)
    ensures aid in AccountKeys(states[n], q) ==> q == p
  {
    hide Step, IsStart;
    OwnershipIsForever(states, ops, m, n, Key(p, aid));
  }

  /** A token that stopped opening a session never opens one again. */
  lemma DeadTokensStayDead(states: seq<Db>, ops: seq<Op>, m: nat, n: nat, token: string)
    requires IsRun(states, ops) && m <= n <= |ops| && token in states[m].drawn && !TokenLives(states[m], token)
    ensures !TokenLives(states[n], token)
  {
    hide History, Step, IsStart, TokenLives;
    RunIsHistory(states, ops);
    TokenStaysDead(states, m, n, token);
  }

  /** A profile that can sign in can always sign in. */
  lemma NeverLockedOut(states: seq<Db>, ops: seq<Op>, m: nat, n: nat, pid: string)
    requires IsRun(states, ops) && m <= n <= |ops| && HasMethod(states[m], pid)
    ensures HasMethod(states[n], pid)
  {
    hide History, Step, IsStart, HasMethod;
    RunIsHistory(states, ops);
    MethodStays(states, m, n, pid);
  }

  // -------------------------------------------------------------- stale sessions

  /** No transfer moved the account away in between. */
  predicate NotMoved(ops: seq<Op>, m: nat, n: nat, aid: int)
    requires m <= n <= |ops|
  {
    forall j :: m <= j < n && ops[j].Relinks? ==> ops[j].item.from != aid
  }

  lemma StaleStep(a: Db, b: Db, op: Op, i: string)
    requires Inv(a) && Step(a, b, op) && i in a.sessions && Stale(a, i)
    requires op.Relinks? ==> op.item.from != a.sessions[i].aid
    ensures i in b.sessions && Stale(b, i)
    ensures b.sessions[i].pid == a.sessions[i].pid && b.sessions[i].aid == a.sessions[i].aid
  {
    StepKeeps(a, b, op);
    if op.Relinks? {
      RelinkOf(a, b, op);
      assert VersionsRise(a.bindings, b.bindings);
      hide Inv, Evolves, Step, TransferRelink.ItemStep, VersionsRise;
      TransferRelink.ItemStepKeeps(a, b, op.item, op.row, op.newPid, op.pid, op.now);
      RisenIsStale(a, b, i);
    } else {
      assert StaleStays(a, b);
      hide Inv, Evolves, Step;
    }
  }

  lemma RisenIsStale(a: Db, b: Db, i: string)
    requires VersionsRise(a.bindings, b.bindings) && i in a.sessions && i in b.sessions
    requires b.sessions[i] == a.sessions[i]
    requires Stale(a, i)
    ensures Stale(b, i)
  {
  }

  lemma {:induction false} StaleAfter(states: seq<Db>, ops: seq<Op>, m: nat, n: nat, i: string)
    requires IsRun(states, ops) && m <= n <= |ops| && i in states[m].sessions && Stale(states[m], i)
    requires NotMoved(ops, m, n, states[m].sessions[i].aid)
    ensures i in states[n].sessions && Stale(states[n], i) && states[n].sessions[i].aid == states[m].sessions[i].aid
    decreases n - m
  {
    hide Step, IsStart, Stale;
    if m < n {
      StaleAfter(states, ops, m, n - 1, i);
      RunIsSound(states, ops, n - 1);
      RunStep(states, ops, n - 1);
      hide IsRun;
      StaleStep(states[n - 1], states[n], ops[n - 1], i);
    }
  }

  /** A session left behind by a change to its binding opens nothing, ever again,
      unless a transfer takes it along from that very account. */
  lemma LeftBehindNeverOpens(states: seq<Db>, ops: seq<Op>, m: nat, n: nat, i: string, token: string, now: int)
    requires IsRun(states, ops) && m <= n <= |ops| && i in states[m].sessions && Stale(states[m], i)
    requires NotMoved(ops, m, n, states[m].sessions[i].aid)
    ensures i in states[n].sessions && Stale(states[n], i) && !OpensBy(states[n], i, token, now)
  {
    hide Step, IsStart;
    StaleAfter(states, ops, m, n, i);
  }

  // ------------------------------------------------------------------ challenges

  /** How often a code was judged against a challenge. */
  function Judgings(ops: seq<Op>, id: string): nat {
    if ops == [] then 0
    else
      var op := ops[|ops| - 1];
      Judgings(ops[..|ops| - 1], id) + if op.Judges? && op.id == id then 1 else 0
  }

  /** The operation uses a challenge up: on its own, or as the ticket behind a new link
      or a new profile. */
  predicate Uses(op: Op, id: string) {
    match op
    case Spends(c, _, _, _, _) => c == id
    case LinksGame(_, c, _, _) => c == id
    case FoundsByPassword(c, _, _, _, _, _, _) => c == id
    case FoundsByPasskey(c, _, _, _, _, _, _) => c == id
    case _ => false
  }

  lemma RunPrefix(states: seq<Db>, ops: seq<Op>)
    requires IsRun(states, ops) && ops != []
    ensures IsRun(states[..|ops|], ops[..|ops| - 1])
  {
    hide Step, IsStart;
  }

  lemma JudgeStepCounts(a: Db, b: Db, op: Op, id: string)
    requires Step(a, b, op) && op.Judges? && op.id == id
    ensures id in a.challenges && id in b.challenges && a.challenges[id].attempts < b.challenges[id].attempts
    ensures a.challenges[id].verifiedAt.None? && !a.challenges[id].consumed
    ensures op.good ==> b.challenges[id].verifiedAt.Some?
  {
    assert JudgeStep(a, b, id, op.binding, op.purpose, op.profile, op.good, op.now);
    hide Step;
  }

  lemma {:induction false} JudgingsAreJudged(states: seq<Db>, ops: seq<Op>, id: string)
    requires IsRun(states, ops)
    ensures Judgings(ops, id) <= Judged(states, id)
  {
    hide Step, IsStart;
    if ops != [] {
      var n := |ops|;
      RunPrefix(states, ops);
      JudgingsAreJudged(states[..n], ops[..n - 1], id);
      RunStep(states, ops, n - 1);
      hide IsRun;
      if ops[n - 1].Judges? && ops[n - 1].id == id {
        JudgeStepCounts(states[n - 1], states[n], ops[n - 1], id);
      }
    }
  }

  /** Over any run at most five codes are judged against a challenge. */
  lemma FiveTries(states: seq<Db>, ops: seq<Op>, id: string)
    requires IsRun(states, ops)
    ensures Judgings(ops, id) <= 5
  {
    hide History, Step, IsStart;
    RunIsHistory(states, ops);
    JudgingsAreJudged(states, ops, id);
    ChallengeLimits(states, id);
  }

  lemma UseStep(a: Db, b: Db, op: Op, id: string)
    requires Inv(a) && Step(a, b, op) && Uses(op, id)
    ensures id in a.challenges && !a.challenges[id].consumed
    ensures id in b.challenges && b.challenges[id].consumed
  {
    hide Inv, InstallStep, LookStep, EnterStep, PasswordStep, RenameStep, DropStep, SwitchStep, EndStep;
    hide DiscordStep, UnlinkStep, PoseStep, JudgeStep, RegisterStep, EditStep, TransferRelink.ItemStep;
    hide SignedIn, Recent, TicketReady, MayTake, LinkKnown, Joined, AccountOf, MayFoundOn, Founded, SessionMade, Sound;
    match op {
      case Spends(_, _, _, _, _) =>
      case LinksGame(c, _, binding, now) =>
        ReadyIsKnown(a, id, binding, GameLink, Some(c.pid), now);
        LinkStepKeeps(a, b, c, id, binding, now);
      case FoundsByPassword(_, binding, name, hash, sid, token, now) =>
        FoundingIsReady(a, id, binding, name, sid, token, now);
        PasswordFoundStepKeeps(a, b, id, binding, name, hash, sid, token, now);
      case FoundsByPasskey(_, binding, name, key, sid, token, now) =>
        FoundingIsReady(a, id, binding, name, sid, token, now);
        PasskeyFoundStepKeeps(a, b, id, binding, name, key, sid, token, now);
    }
  }

  /** Between two states of a run a challenge that is in both has kept its verdict. */
  lemma ChallengeHolds(states: seq<Db>, ops: seq<Op>, m: nat, n: nat, id: string)
    requires IsRun(states, ops) && m <= n <= |ops| && id in states[m].challenges && id in states[n].challenges
    ensures ChallengeKept(states[m].challenges[id], states[n].challenges[id])
  {
    hide Step, IsStart, History, ChallengeKept, Inv;
    RunIsHistory(states, ops);
    HistoryEvolves(states, m, n);
    assert ChallengesKept(states[m], states[n]);
  }

  /** After a success no code is judged against the challenge any more. */
  lemma NoneAfterSuccess(states: seq<Db>, ops: seq<Op>, i: nat, j: nat, id: string)
    requires IsRun(states, ops) && i < j < |ops| && ops[i].Judges? && ops[i].id == id && ops[i].good
    ensures !(ops[j].Judges? && ops[j].id == id)
  {
    hide Step, IsStart;
    RunStep(states, ops, i);
    RunStep(states, ops, j);
    JudgeStepCounts(states[i], states[i + 1], ops[i], id);
    if ops[j].Judges? && ops[j].id == id {
      JudgeStepCounts(states[j], states[j + 1], ops[j], id);
      ChallengeHolds(states, ops, i + 1, j, id);
    }
  }

  /** Whatever uses a challenge up, or judges a code against it, finds it unused. */
  lemma FoundUnused(states: seq<Db>, ops: seq<Op>, j: nat, id: string)
    requires IsRun(states, ops) && j < |ops| && (Uses(ops[j], id) || (ops[j].Judges? && ops[j].id == id))
    ensures id in states[j].challenges && !states[j].challenges[id].consumed
  {
    RunStep(states, ops, j);
    RunIsSound(states, ops, j);
    hide IsRun, Step, Inv, Uses;
    if Uses(ops[j], id) {
      UseStep(states[j], states[j + 1], ops[j], id);
    } else {
      JudgeStepCounts(states[j], states[j + 1], ops[j], id);
    }
  }

  lemma LeftUsed(states: seq<Db>, ops: seq<Op>, i: nat, id: string)
    requires IsRun(states, ops) && i < |ops| && Uses(ops[i], id)
    ensures id in states[i + 1].challenges && states[i + 1].challenges[id].consumed
  {
    RunStep(states, ops, i);
    RunIsSound(states, ops, i);
    hide IsRun, Step, Inv, Uses;
    UseStep(states[i], states[i + 1], ops[i], id);
  }

  /** A challenge is used up once: one verified game code makes one link or one profile
      at most, and nothing is judged against it afterwards. */
  lemma UsedOnce(states: seq<Db>, ops: seq<Op>, i: nat, j: nat, id: string)
    requires IsRun(states, ops) && i < j < |ops| && Uses(ops[i], id)
    ensures !Uses(ops[j], id) && !(ops[j].Judges? && ops[j].id == id)
  {
    hide Step, IsStart, Uses;
    if Uses(ops[j], id) || (ops[j].Judges? && ops[j].id == id) {
      LeftUsed(states, ops, i, id);
      FoundUnused(states, ops, j, id);
      ChallengeHolds(states, ops, i + 1, j, id);
    }
  }

  // --------------------------------------------------------------- retired tokens

  /** The operation gives the session a new token in place of this one. */
  predicate Retires(op: Op, token: string) {
    match op
    case SetsPassword(c, _, _, _, _) => c.token == token
    case Registers(c, _, _, _) => c.token == token
    case Switches(c, _, _, _) => c.token == token
    case _ => false
  }

  lemma SwitchRetires(a: Db, b: Db, c: Current, aid: int, token: string, now: int)
    requires Inv(a) && SwitchStep(a, b, c, aid, token, now)
    ensures !TokenLives(b, c.token) && c.token in b.drawn
  {
    assert TokensOk(a.sessions, a.drawn);
    assert c.sid in a.sessions && a.sessions[c.sid].token == c.token;
    hide Inv, SignedIn, AccountOpen, CredentialActive;
  }

  lemma PasswordRetires(a: Db, b: Db, c: Current, name: string, hash: string, token: string, now: int)
    requires Inv(a) && PasswordStep(a, b, c, name, hash, token, now)
    ensures !TokenLives(b, c.token) && c.token in b.drawn
  {
    hide Inv, Recent, NameFree, TokenLives;
    PasswordSetLeaves(a, c, name, hash, token, now);
    RecentFacts(a, c, now);
    RecentIsOwn(a, c, now);
  }

  lemma RegisterRetires(a: Db, b: Db, c: Current, key: string, token: string, now: int)
    requires Inv(a) && RegisterStep(a, b, c, key, token, now)
    ensures !TokenLives(b, c.token) && c.token in b.drawn
  {
    hide Inv, Recent, ActiveKeys, TokenLives;
    RegisteredLeaves(a, c, key, token, now);
    RecentFacts(a, c, now);
    RecentIsOwn(a, c, now);
  }

  lemma RetireStep(a: Db, b: Db, op: Op, token: string)
    requires Inv(a) && Step(a, b, op) && Retires(op, token)
    ensures !TokenLives(b, token) && token in b.drawn
  {
    hide Inv, InstallStep, LookStep, EnterStep, PasswordStep, RenameStep, DropStep, SwitchStep, EndStep;
    hide DiscordStep, UnlinkStep, PoseStep, JudgeStep, SpendStep, RegisterStep, LinkStep, PasswordFoundStep;
    hide PasskeyFoundStep, EditStep, TransferRelink.ItemStep, TokenLives;
    match op {
      case SetsPassword(c, name, hash, next, now) => PasswordRetires(a, b, c, name, hash, next, now);
      case Registers(c, key, next, now) => RegisterRetires(a, b, c, key, next, now);
      case Switches(c, aid, next, now) => SwitchRetires(a, b, c, aid, next, now);
    }
  }

  /** A token replaced by a change of password, a new passkey or a switch of account
      opens no session at any later state. */
  lemma RetiredForGood(states: seq<Db>, ops: seq<Op>, i: nat, n: nat, token: string)
    requires IsRun(states, ops) && i < n <= |ops| && Retires(ops[i], token)
    ensures !TokenLives(states[n], token)
  {
    hide Step, IsStart, Inv, Retires, TokenLives;
    RunStep(states, ops, i);
    RunIsSound(states, ops, i);
    RetireStep(states[i], states[i + 1], ops[i], token);
    DeadTokensStayDead(states, ops, i + 1, n, token);
  }

  // --------------------------------------------------------------- migrating again

  /** Migrating a database that is in use changes nothing, when it is possible at all. */
  lemma LaterMigrationIsIdle(states: seq<Db>, ops: seq<Op>, n: nat)
    requires IsRun(states, ops) && n <= |ops| && PortalBackfill.Migratable(states[n])
    ensures PortalBackfill.Backfilled(states[n])
  {
    RunIsSound(states, ops, n);
    hide IsRun;
    PortalBackfill.SoundIsBackfilled(states[n]);
  }
}
