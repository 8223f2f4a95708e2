/** The portal as it is called. A request with a token comes in through the session
    check; every operation is a transaction of its own; and everything that was done
    is on record, so that whatever is called, in whatever order, is a run. */
module PortalServer {
  import opened Wrappers
  import opened PortalTables
  import opened PortalIdentity
  import opened PortalSteps
  import opened PortalSessions
  import opened PortalAccounts
  import opened PortalRuns
  import TransferRelink

  // ------------------------------------------------------------- the front door

  /** Who a token lets in: nobody, or the one session that has it. */
  ghost predicate LetIn(db: Db, c: Option<Current>, token: string, now: int) {
    if c.None? then forall i :: !OpensBy(db, i, token, now)
    else OpensBy(db, c.value.sid, token, now) && c.value.token == token && SignedIn(AfterLook(db, c, now), c.value, now)
  }

  /** The database once the session has been looked at. */
  function AfterLook(db: Db, c: Option<Current>, now: int): Db {
    if c.Some? && c.value.sid in db.sessions then Touched(db, c.value.sid, now) else db
  }

  function Looked(c: Option<Current>, now: int): seq<Op> {
    if c.Some? then [Looks(c.value.sid, now)] else []
  }

  // ---------------------------------------------------- operations are the steps

  lemma LookIsStep(a: Db, b: Db, c: Current, token: string, now: int)
    requires OpensBy(a, c.sid, token, now) && b == Touched(a, c.sid, now)
    ensures Step(a, b, Looks(c.sid, now)) && b == AfterLook(a, Some(c), now)
    ensures b.drawn == a.drawn && b.installed == a.installed
  {
    hide Usable;
  }

  lemma EnterIsStep(a: Db, b: Db, pid: string, c: Credential, sid: string, token: string, authAt: int,
        aid: Option<int>, chosen: int, now: int)
    requires a.installed && sid !in a.drawn && token !in a.drawn && MayEnter(a, pid, c, aid)
    requires if aid.Some? then chosen == aid.value else IsDefault(a, pid, chosen)
    requires chosen != 0 ==> Key(pid, chosen) in a.bindings && AccountOpen(a, pid, chosen)
    requires b == SessionMade(a, pid, c, sid, token, authAt, chosen, now)
    ensures Step(a, b, Enters(pid, c, sid, token, authAt, chosen, now))
  {
    hide SessionMade, IsDefault, AccountOpen, CredentialActive, ProfileActive;
  }

  lemma SwitchIsStep(a: Db, b: Db, c: Current, aid: int, token: string, now: int)
    requires SignedIn(a, c, now) && Switchable(a, c, aid, now) && token !in a.drawn
    requires Key(c.pid, aid) in a.bindings && b == Switched(a, c.sid, aid, token)
    ensures Step(a, b, Switches(c, aid, token, now))
  {
    hide SignedIn, Switched, AccountOpen, CredentialActive;
  }

  /** A default account is one that is held. */
  lemma DefaultIsBound(db: Db, pid: string, aid: int)
    requires IsDefault(db, pid, aid)
    ensures aid != 0 ==> Key(pid, aid) in db.bindings
  {
  }

  lemma BoundIsKnown(a: Db, k: Key)
    requires Inv(a)
    ensures k in a.bindings && a.bindings[k].legacy.Some? ==> a.bindings[k].legacy.value in a.links
  {
    if k in a.bindings {
      MirrorAt(a, k);
    }
  }

  lemma UnlinkIsStep(a: Db, b: Db, c: Current, aid: int, survivor: int, now: int)
    requires SignedIn(a, c, now) && Recent(a, c.pid, c, now)
    requires Key(c.pid, aid) in a.bindings && Active(a.bindings[Key(c.pid, aid)]) && LinkKnown(a, Key(c.pid, aid))
    requires c.sid in a.sessions && a.sessions[c.sid].pid == c.pid
    requires var m := LetGoAll(a, c, aid, now);
             if c.aid != aid then b == m
             else
               && IsDefault(m, c.pid, survivor) && c.sid in m.sessions && m.sessions[c.sid].pid == c.pid
               && (survivor != 0 ==> Key(c.pid, survivor) in m.bindings) && b == Repointed(m, c.sid, survivor)
    ensures Step(a, b, Unlinks(c, aid, survivor, now))
  {
    hide SignedIn, Recent, LetGoAll, IsDefault, Repointed, LinkKnown;
  }

  lemma LinkIsStep(a: Db, b: Db, c: Current, id: string, binding: string, now: int)
    requires SignedIn(a, c, now) && Recent(a, c.pid, c, now) && TicketReady(a, id, binding, GameLink, Some(c.pid), now)
    requires c.sid in a.sessions && a.sessions[c.sid].pid == c.pid && id in a.challenges
    requires var k := Key(c.pid, a.challenges[id].context.aid);
             MayTake(a, k) && LinkKnown(a, k) && b == Joined(a, c, k.aid, id, now)
    ensures Step(a, b, LinksGame(c, id, binding, now))
  {
    hide SignedIn, Recent, TicketReady, MayTake, LinkKnown, Joined;
  }

  lemma PoseIsStep(a: Db, b: Db, id: string, c: Challenge, now: int)
    requires a.installed && id !in a.drawn && c.attempts == 0 && c.verifiedAt.None? && !c.consumed
    requires c.expires == now + CHALLENGE_TTL && b == PutChallenge(Sweep(a, now - 86400), id, c)
    ensures Step(a, b, Poses(id, c, now))
  {
  }

  lemma JudgeIsStep(a: Db, b: Db, id: string, binding: string, purpose: Purpose, pid: Option<string>, good: bool,
        now: int)
    requires a.installed && Open(a, id, binding, purpose, pid, now)
    requires a.challenges[id].verifiedAt.None? && a.challenges[id].attempts < MAX_ATTEMPTS
    requires b == PutChallenge(a, id, Tried(a.challenges[id], good, now))
    ensures Step(a, b, Judges(id, binding, purpose, pid, good, now))
  {
    hide Tried;
  }

  lemma SpendIsStep(a: Db, id: string, binding: string, purpose: Purpose, pid: Option<string>, now: int)
    requires a.installed && Open(a, id, binding, purpose, pid, now)
    ensures id in a.challenges && Step(a, Consumed(a, id), Spends(id, binding, purpose, pid, now))
  {
    hide Consumed;
  }

  lemma FoundIsStep(a: Db, b: Db, id: string, binding: string, name: string, hash: string, sid: string, token: string,
        now: int)
    requires a.installed && TicketReady(a, id, binding, GameOnboard, None, now) && MayFound(a, AccountOf(a, id), name)
    requires id in a.challenges && sid !in a.drawn && token !in a.drawn
    requires var k := AccountOf(a, id);
             && LinkKnown(WithProfile(a, k.pid), k) && k in Founded(a, k, name, id, now).bindings
             && b == SessionMade(PutPassword(Founded(a, k, name, id, now), k.pid, hash, 1), k.pid, PasswordVersion(1),
                                 sid, token, now, k.aid, now)
    ensures Step(a, b, FoundsByPassword(id, binding, name, hash, sid, token, now))
  {
    hide TicketReady, MayFound, LinkKnown, Founded, SessionMade, AccountOf;
  }

  lemma KeyFoundIsStep(a: Db, b: Db, id: string, binding: string, name: string, key: string, sid: string,
        token: string, now: int)
    requires a.installed && TicketReady(a, id, binding, GameOnboard, None, now) && MayFound(a, AccountOf(a, id), name)
    requires id in a.challenges && sid !in a.drawn && token !in a.drawn && key !in a.passkeys
    requires var k := AccountOf(a, id);
             && LinkKnown(WithProfile(a, k.pid), k) && k in Founded(a, k, name, id, now).bindings
             && b == SessionMade(PutPasskey(Founded(a, k, name, id, now), key, Passkey(k.pid, false)), k.pid,
                                 PasskeyId(key), sid, token, now, k.aid, now)
    ensures Step(a, b, FoundsByPasskey(id, binding, name, key, sid, token, now))
  {
    hide TicketReady, MayFound, LinkKnown, Founded, SessionMade, AccountOf;
  }

  lemma AttemptIsOpen(a: Db, id: string, binding: string, now: int)
    requires MayAttempt(a, id, binding, now)
    ensures id in a.challenges && Open(a, id, binding, PasskeyBootstrap, a.challenges[id].pid, now)
  {
  }

  /** The second step of a first passkey, once the attempt has spent its challenge. */
  lemma FoundByKeyIsStep(a: Db, b: Db, id: string, binding: string, key: Option<string>, sid: string, token: string,
        now: int)
    requires a.installed && sid !in a.drawn && token !in a.drawn && ChallengesOk(a.challenges, a.drawn)
    requires PasskeyAccepted(a, id, binding, key, now) && PasskeyFounded(a, b, id, binding, key, sid, token, now)
    ensures id in a.challenges && key.Some?
    ensures var row := a.challenges[id].context;
            Step(Consumed(a, id), b, FoundsByPasskey(row.ticket, binding, row.name, key.value, sid, token, now))
  {
    hide Step, Onboarded, Consumed, TicketReady, MayFound, LinkKnown, Founded, SessionMade, AccountOf, MayAttempt;
    AttemptIsOpen(a, id, binding, now);
    ConsumedDrawn(a, id);
    var row := a.challenges[id].context;
    KeyFoundIsStep(Consumed(a, id), b, row.ticket, binding, row.name, key.value, sid, token, now);
  }

  lemma EditIsStep(a: Db, b: Db, change: Change, newPid: string, pid: string)
    requires newPid !in a.profiles && IsChosen(a.profiles, change.did, newPid, pid)
    requires Acceptable(a, b.links, change, pid) && Finished(a, b, change.did, pid)
    ensures Step(a, b, Edits(change, newPid, pid))
  {
    hide IsChosen, Acceptable, Finished;
  }

  lemma RelinkIsStep(a: Db, b: Db, i: TransferRelink.Item, row: int, newPid: string, pid: string, now: int)
    requires TransferRelink.ItemStep(a, b, i, row, newPid, pid, now)
    ensures Step(a, b, Relinks(i, row, newPid, pid, now))
  {
    hide TransferRelink.ItemStep;
  }

  lemma DropIsStep(a: Db, b: Db, c: Current, way: Way, now: int)
    requires Recent(a, c.pid, c, now) && MethodCount(a, c.pid) > 1 && WayGone(a, b, c.pid, way)
    ensures Step(a, b, DropsWay(c, way, now))
  {
    hide Recent, MethodCount, WayGone;
  }

  lemma RegisterIsStep(a: Db, b: Db, c: Current, key: string, token: string, now: int)
    requires RegisterStep(a, b, c, key, token, now)
    ensures Step(a, b, Registers(c, key, token, now))
  {
    hide RegisterStep;
  }

  lemma SetIsStep(a: Db, b: Db, c: Current, name: string, hash: string, token: string, now: int)
    requires Recent(a, c.pid, c, now) && (c.pid in a.users ==> NameFree(a.users, c.pid, Some(name)))
    requires token !in a.drawn && c.sid in a.sessions && b == PasswordSet(a, c, name, hash, token, now)
    ensures Step(a, b, SetsPassword(c, name, hash, token, now))
  {
    hide Recent, NameFree, PasswordSet;
  }

  lemma RenameIsStep(a: Db, b: Db, c: Current, name: string, now: int)
    requires Recent(a, c.pid, c, now) && (c.pid in a.users ==> NameFree(a.users, c.pid, Some(name)))
    requires b == Named(a, c.pid, name)
    ensures Step(a, b, Renames(c, name, now))
  {
    hide Recent, NameFree, Named;
  }

  lemma SwitchBound(a: Db, c: Current, aid: int, now: int)
    requires Switchable(a, c, aid, now)
    ensures Key(c.pid, aid) in a.bindings
  {
  }

  lemma InIsKnown(a: Db, c: Current, now: int)
    requires SignedIn(a, c, now)
    ensures c.sid in a.sessions
  {
  }

  lemma EndIsStep(a: Db, b: Db, target: string)
    requires target in a.sessions && b == SignOut(a, {target})
    ensures Step(a, b, Ends(target))
  {
    hide SignOut;
  }

  lemma DiscordIsStep(a: Db, b: Db, c: Current, did: string, now: int)
    requires Recent(a, c.pid, c, now) && (did in a.providers ==> a.providers[did].pid == c.pid)
    requires forall d :: d in a.providers && a.providers[d] == Provider(c.pid, false) ==> d == did
    requires b == PutProvider(a, did, Provider(c.pid, false))
    ensures Step(a, b, LinksDiscord(c, did, now))
  {
    hide Recent, PutProvider;
  }

  lemma UnlinkDone(a: Db, b: Db, c: Current, aid: int, survivor: int, now: int)
    requires SignedIn(a, c, now) && Recent(a, c.pid, c, now)
    requires var k := Key(c.pid, aid);
             && k in a.bindings && Active(a.bindings[k])
             && (a.bindings[k].legacy.Some? ==> a.bindings[k].legacy.value in a.links)
    requires var m := LetGoAll(a, c, aid, now);
             if c.aid != aid then b == m
             else
               && IsDefault(m, c.pid, survivor) && c.sid in m.sessions
               && (survivor != 0 ==> Key(m.sessions[c.sid].pid, survivor) in m.bindings)
               && b == Repointed(m, c.sid, survivor)
    ensures Step(a, b, Unlinks(c, aid, survivor, now))
  {
    hide SignedIn, Recent, Active, LetGoAll, IsDefault, Repointed, Step;
    RecentIsOwn(a, c, now);
    LetGoIsInactive(a, c, aid, now);
    if c.aid == aid {
      DefaultIsBound(LetGoAll(a, c, aid, now), c.pid, survivor);
    }
    UnlinkIsStep(a, b, c, aid, survivor, now);
  }

  /** The account that a ticket stands for. */
  lemma LinkTarget(a: Db, id: string, binding: string, pid: string, now: int)
    ensures TicketReady(a, id, binding, GameLink, Some(pid), now) ==>
              id in a.challenges && AccountOf(a, id).aid == a.challenges[id].context.aid
  {
  }

  /** The attempt spends the challenge of a registration. */
  predicate MaySpend(a: Db, c: Current, id: string, binding: string, now: int) {
    Recent(a, c.pid, c, now) && Open(a, id, binding, PasskeyRegister, Some(c.pid), now)
  }

  predicate MayRegister(a: Db, c: Current, id: string, binding: string, key: Option<string>, now: int) {
    && MaySpend(a, c, id, binding, now) && a.challenges[id].context.sid == c.sid && key.Some?
    && key.value !in a.passkeys && |ActiveKeys(a.passkeys, c.pid)| < 8
  }

  lemma RegisterCases(a: Db, c: Current, id: string, binding: string, key: Option<string>, now: int)
    ensures MaySpend(a, c, id, binding, now) <==>
              Recent(a, c.pid, c, now) && Open(a, id, binding, PasskeyRegister, Some(c.pid), now)
    ensures MaySpend(a, c, id, binding, now) ==> id in a.challenges
    ensures MayRegister(a, c, id, binding, key, now) <==>
              && MaySpend(a, c, id, binding, now) && id in a.challenges && a.challenges[id].context.sid == c.sid
              && key.Some? && key.value !in a.passkeys && |ActiveKeys(a.passkeys, c.pid)| < 8
  {
    hide Recent, ActiveKeys;
  }

  lemma AttemptSpends(a: Db, c: Current, binding: string, id: string, now: int)
    requires Inv(a)
    ensures MaySpend(a, c, id, binding, now) ==> id in a.challenges
    ensures forall b :: AttemptLeft(a, b, c, binding, id, now) <==>
                          b == if MaySpend(a, c, id, binding, now) then Consumed(a, id) else a
  {
    AttemptCosts(a, c, binding, id, now);
    hide Inv, Recent, Consumed, RegistrationOpen, SpentIn;
  }

  lemma RegistrationEnded(a: Db, b: Db, r: Result<string, AuthError>, c: Current, binding: string, id: string,
        key: Option<string>, token: string, now: int)
    ensures RegistrationEnds(a, b, r, c, binding, id, key, token, now) ==>
              && (r.Ok? <==> RegistrationGood(a, c, binding, id, key, now))
              && (r.Ok? ==> key.Some? && KeyStored(a, b, c, id, key.value, token))
              && (r.Err? ==> AttemptLeft(a, b, c, binding, id, now))
  {
    hide RegistrationGood, KeyStored, AttemptLeft;
  }

  lemma SameSessions(a: Db, id: string)
    requires id in a.challenges
    ensures Consumed(a, id).sessions == a.sessions
  {
  }

  lemma RegisterDone(a: Db, b: Db, c: Current, id: string, key: string, token: string, now: int)
    requires ChallengesOk(a.challenges, a.drawn) && id in a.challenges && token !in a.drawn && key !in a.passkeys
    requires Recent(a, c.pid, c, now)
    requires |ActiveKeys(a.passkeys, c.pid)| < 8 && c.sid in Consumed(a, id).sessions
    requires b == Registered(Consumed(a, id), c, key, token)
    ensures Step(Consumed(a, id), b, Registers(c, key, token, now))
  {
    hide *;
    ConsumedDrawn(a, id);
    StillRecent(a, c, id, now);
    var m := Consumed(a, id);
    RegisterIsStep(m, b, c, key, token, now) by { RegisterFits(m, b, c, key, token, now); }
  }

  lemma RegisterFits(a: Db, b: Db, c: Current, key: string, token: string, now: int)
    requires Recent(a, c.pid, c, now) && token !in a.drawn && key !in a.passkeys && c.sid in a.sessions
    requires |ActiveKeys(a.passkeys, c.pid)| < 8 && b == Registered(a, c, key, token)
    ensures RegisterStep(a, b, c, key, token, now)
  {
    hide Recent, ActiveKeys, Registered;
  }

  /** A code is judged at all only while the challenge is open and has tries left. */
  predicate MayJudge(db: Db, id: string, binding: string, purpose: Purpose, pid: Option<string>, now: int) {
    && Open(db, id, binding, purpose, pid, now)
    && db.challenges[id].verifiedAt.None? && db.challenges[id].attempts < MAX_ATTEMPTS
  }

  predicate IsCode(db: Db, id: string, code: string) {
    id in db.challenges && db.challenges[id].code == Some(CodeOf(code))
  }

  lemma JudgeCases(db: Db, id: string, binding: string, code: string, purpose: Purpose, pid: Option<string>, now: int)
    ensures Open(db, id, binding, purpose, pid, now) ==> id in db.challenges
    ensures MayJudge(db, id, binding, purpose, pid, now) <==>
              && Open(db, id, binding, purpose, pid, now) && id in db.challenges
              && db.challenges[id].verifiedAt.None? && db.challenges[id].attempts < MAX_ATTEMPTS
    ensures IsCode(db, id, code) <==> id in db.challenges && db.challenges[id].code == Some(CodeOf(code))
  {
    hide CodeOf;
  }

  /** What the attempt of a first passkey adds to the record. */
  function Attempting(a: Db, id: string, binding: string, now: int): seq<Op> {
    if MayAttempt(a, id, binding, now)
    then [Spends(id, binding, PasskeyBootstrap, a.challenges[id].pid, now)] else []
  }

  lemma AttemptingIs(a: Db, id: string, binding: string, now: int)
    ensures MayAttempt(a, id, binding, now) ==> id in a.challenges
    ensures Attempting(a, id, binding, now)
            == if MayAttempt(a, id, binding, now)
               then [Spends(id, binding, PasskeyBootstrap, a.challenges[id].pid, now)] else []
  {
    hide Open;
  }

  /** What a successful first passkey adds to the record. */
  function KeyFounding(a: Db, id: string, binding: string, key: Option<string>, sid: string, token: string,
        now: int): seq<Op> {
    if id !in a.challenges || key.None? then []
    else
      var row := a.challenges[id].context;
      [FoundsByPasskey(row.ticket, binding, row.name, key.value, sid, token, now)]
  }

  lemma KeyFoundingIs(a: Db, id: string, binding: string, key: Option<string>, sid: string, token: string, now: int)
    requires id in a.challenges && key.Some?
    ensures var row := a.challenges[id].context;
            KeyFounding(a, id, binding, key, sid, token, now)
            == [FoundsByPasskey(row.ticket, binding, row.name, key.value, sid, token, now)]
  {
  }

  lemma InstallIsStep(a: Db, b: Db)
    requires !a.installed && b == a.(installed := true, owners := b.owners, users := b.users)
    requires b.owners.Keys == AccountsOf(b.bindings)
    requires forall n :: n in b.owners ==> IsOwner(b.bindings, n, b.owners[n])
    requires b.users == map p | p in b.profiles :: None
    ensures Step(a, b, Installs(b.owners))
  {
    hide IsOwner, AccountsOf;
  }

  /** The change can be begun. */
  ghost predicate MayEdit(db: Db, did: string) {
    ValidDiscordId(did) && LinksValid(db.links)
  }

  lemma EditCases(db: Db, did: string)
    ensures MayEdit(db, did) <==> ValidDiscordId(did) && LinksValid(db.links)
  {
    hide ValidDiscordId, LinksValid;
  }

  // ---------------------------------------------------------------- the portal

  class Portal {
    const conn: Connection
    /** Every state there has been, and what led from each to the next. */
    ghost var states: seq<Db>
    ghost var ops: seq<Op>

    ghost predicate Valid()
      reads this, conn
    {
      conn.Idle() && Reaches(states, ops, conn.db)
    }

    constructor (conn: Connection)
      requires conn.Idle() && IsStart(conn.db)
      ensures Valid() && this.conn == conn && ops == []
    {
      this.conn, states, ops := conn, [conn.db], [];
    }

    lemma IsValid()
      ensures Valid() <==> conn.Idle() && Reaches(states, ops, conn.db)
    {
      hide Reaches;
    }

    ghost method Record(a: Db, b: Db, op: Op)
      requires Reaches(states, ops, a) && Step(a, b, op)
      modifies this`states, this`ops
      ensures Reaches(states, ops, b) && ops == old(ops) + [op]
    {
      hide *;
      ReachFurther(states, ops, a, b, op);
      states, ops := states + [b], ops + [op];
    }

    /** The session check that a request begins with. */
    method Look(token: string, now: int) returns (c: Option<Current>)
      requires Valid()
      modifies this, conn
      ensures Valid() && LetIn(old(conn.db), c, token, now) && conn.db == AfterLook(old(conn.db), c, now)
      ensures ops == old(ops) + Looked(c, now)
      ensures c.Some? ==> SignedIn(conn.db, c.value, now)
      ensures conn.db.drawn == old(conn.db.drawn) && conn.db.installed == old(conn.db.installed)
    {
      hide Reaches, Inv, Evolves, StaleStays, Step, OpensBy, SignedIn, Touched;
      ghost var a := conn.db;
      ReachedIsSound(states, ops, a);
      c := OpenSession(conn, token, now);
      if c.Some? {
        LookIsStep(a, conn.db, c.value, token, now);
        Record(a, conn.db, Looks(c.value.sid, now));
      }
    }

    /** A new password. */
    method SetPassword(token: string, name: string, hash: string, next: string, now: int)
      returns (r: Result<string, AuthError>, c: Option<Current>)
      requires Valid() && next !in conn.db.drawn
      modifies this, conn
      ensures Valid() && LetIn(old(conn.db), c, token, now)
      ensures var a := AfterLook(old(conn.db), c, now);
              r.Ok? <==>
                c.Some? && Recent(a, c.value.pid, c.value, now)
                && (c.value.pid in a.users ==> NameFree(a.users, c.value.pid, Some(name)))
      ensures ops == old(ops) + Looked(c, now)
                     + if r.Ok? && c.Some? then [SetsPassword(c.value, name, hash, next, now)] else []
    {
      hide *;
      c := Look(token, now);
      if c.None? {
        r := Err(SignInFailed);
        return;
      }
      ghost var a := conn.db;
      IsValid();
      ReachedIsSound(states, ops, a);
      r := PortalSessions.SetPassword(conn, c.value, name, hash, next, now);
      if r.Ok? {
        RecentIsOwn(a, c.value, now);
        SetIsStep(a, conn.db, c.value, name, hash, next, now);
        Record(a, conn.db, SetsPassword(c.value, name, hash, next, now));
      }
      IsValid();
    }

    /** A new name. */
    method SetUsername(token: string, name: string, now: int)
      returns (r: Result<(), AuthError>, c: Option<Current>)
      requires Valid()
      modifies this, conn
      ensures Valid() && LetIn(old(conn.db), c, token, now)
      ensures var a := AfterLook(old(conn.db), c, now);
              r.Ok? <==>
                c.Some? && Recent(a, c.value.pid, c.value, now)
                && (c.value.pid in a.users ==> NameFree(a.users, c.value.pid, Some(name)))
      ensures ops == old(ops) + Looked(c, now) + if r.Ok? && c.Some? then [Renames(c.value, name, now)] else []
    {
      hide *;
      c := Look(token, now);
      if c.None? {
        r := Err(SignInFailed);
        return;
      }
      ghost var a := conn.db;
      IsValid();
      ReachedIsSound(states, ops, a);
      r := PortalSessions.SetUsername(conn, c.value, name, now);
      if r.Ok? {
        RenameIsStep(a, conn.db, c.value, name, now);
        Record(a, conn.db, Renames(c.value, name, now));
      }
      IsValid();
    }

    /** One of several ways in goes. */
    method RevokeMethod(token: string, way: Way, now: int)
      returns (r: Result<(), AuthError>, c: Option<Current>)
      requires Valid()
      modifies this, conn
      ensures Valid() && LetIn(old(conn.db), c, token, now)
      ensures var a := AfterLook(old(conn.db), c, now);
              r.Ok? <==>
                c.Some? && Recent(a, c.value.pid, c.value, now) && MethodCount(a, c.value.pid) > 1
                && HasWay(a, c.value.pid, way)
      ensures ops == old(ops) + Looked(c, now) + if r.Ok? && c.Some? then [DropsWay(c.value, way, now)] else []
    {
      hide *;
      c := Look(token, now);
      if c.None? {
        r := Err(SignInFailed);
        return;
      }
      ghost var a := conn.db;
      IsValid();
      ReachedIsSound(states, ops, a);
      r := PortalSessions.RevokeMethod(conn, c.value, way, now);
      if r.Ok? {
        DropIsStep(a, conn.db, c.value, way, now);
        Record(a, conn.db, DropsWay(c.value, way, now));
      }
      IsValid();
    }

    /** The session moves to another account. */
    method SwitchSession(token: string, aid: int, next: string, now: int)
      returns (r: Result<string, AuthError>, c: Option<Current>)
      requires Valid() && next !in conn.db.drawn
      modifies this, conn
      ensures Valid() && LetIn(old(conn.db), c, token, now)
      ensures var a := AfterLook(old(conn.db), c, now);
              r.Ok? <==>
                c.Some? && Switchable(a, c.value, aid, now)
      ensures ops == old(ops) + Looked(c, now) + if r.Ok? && c.Some? then [Switches(c.value, aid, next, now)] else []
    {
      hide *;
      c := Look(token, now);
      if c.None? {
        r := Err(SignInFailed);
        return;
      }
      ghost var a := conn.db;
      IsValid();
      ReachedIsSound(states, ops, a);
      r := PortalSessions.SwitchSession(conn, c.value, aid, next, now);
      if r.Ok? {
        SwitchIsStep(a, conn.db, c.value, aid, next, now) by { SwitchBound(a, c.value, aid, now); }
        Record(a, conn.db, Switches(c.value, aid, next, now));
      }
      IsValid();
    }

    /** A session of the profile ends. */
    method RevokeSession(token: string, target: string, now: int)
      returns (r: Result<(), AuthError>, c: Option<Current>)
      requires Valid()
      modifies this, conn
      ensures Valid() && LetIn(old(conn.db), c, token, now)
      ensures var a := AfterLook(old(conn.db), c, now);
              r.Ok? <==>
                c.Some? && Recent(a, c.value.pid, c.value, now) && target in a.sessions
                && a.sessions[target].pid == c.value.pid && !a.sessions[target].revoked
      ensures ops == old(ops) + Looked(c, now) + if r.Ok? && c.Some? then [Ends(target)] else []
    {
      hide *;
      c := Look(token, now);
      if c.None? {
        r := Err(SignInFailed);
        return;
      }
      ghost var a := conn.db;
      IsValid();
      ReachedIsSound(states, ops, a);
      r := PortalSessions.RevokeSession(conn, c.value, target, now);
      if r.Ok? {
        EndIsStep(a, conn.db, target);
        Record(a, conn.db, Ends(target));
      }
      IsValid();
    }

    /** The session itself ends. */
    method Logout(token: string, now: int) returns (c: Option<Current>)
      requires Valid()
      modifies this, conn
      ensures Valid() && LetIn(old(conn.db), c, token, now)
      ensures ops == old(ops) + Looked(c, now) + if c.Some? then [Ends(c.value.sid)] else []
    {
      hide *;
      c := Look(token, now);
      if c.Some? {
        ghost var a := conn.db;
        IsValid();
        InIsKnown(a, c.value, now);
        conn.db := SignOut(conn.db, {c.value.sid});
        EndIsStep(a, conn.db, c.value.sid);
        Record(a, conn.db, Ends(c.value.sid));
        IsValid();
      }
    }

    /** A Discord identity to sign in with. */
    method LinkDiscord(token: string, did: string, now: int)
      returns (r: Result<(), AuthError>, c: Option<Current>)
      requires Valid()
      modifies this, conn
      ensures Valid() && LetIn(old(conn.db), c, token, now)
      ensures var a := AfterLook(old(conn.db), c, now);
              r.Ok? <==>
                c.Some? && ValidDiscordId(did) && Recent(a, c.value.pid, c.value, now)
                && (did in a.providers ==> a.providers[did].pid == c.value.pid)
                && (forall d :: d in a.providers && a.providers[d] == Provider(c.value.pid, false) ==> d == did)
      ensures ops == old(ops) + Looked(c, now) + if r.Ok? && c.Some? then [LinksDiscord(c.value, did, now)] else []
    {
      hide *;
      c := Look(token, now);
      if c.None? {
        r := Err(SignInFailed);
        return;
      }
      ghost var a := conn.db;
      IsValid();
      ReachedIsSound(states, ops, a);
      r := PortalAccounts.LinkDiscord(conn, c.value, did, now);
      if r.Ok? {
        DiscordIsStep(a, conn.db, c.value, did, now);
        Record(a, conn.db, LinksDiscord(c.value, did, now));
      }
      IsValid();
    }

    /** An account is given up. */
    method UnlinkAccount(token: string, aid: int, now: int)
      returns (r: Result<(), AuthError>, survivor: int, c: Option<Current>)
      requires Valid()
      modifies this, conn
      ensures Valid() && LetIn(old(conn.db), c, token, now)
      ensures var a := AfterLook(old(conn.db), c, now);
              r.Ok? <==>
                c.Some? && Recent(a, c.value.pid, c.value, now) && Key(c.value.pid, aid) in a.bindings
                && Active(a.bindings[Key(c.value.pid, aid)])
      ensures ops == old(ops) + Looked(c, now) + if r.Ok? && c.Some? then [Unlinks(c.value, aid, survivor, now)] else []
    {
      hide *;
      survivor := 0;
      c := Look(token, now);
      if c.None? {
        r := Err(SignInFailed);
        return;
      }
      ghost var a := conn.db;
      IsValid();
      ReachedIsSound(states, ops, a);
      BoundIsKnown(a, Key(c.value.pid, aid));
      r, survivor := PortalAccounts.UnlinkAccount(conn, c.value, aid, now);
      if r.Ok? {
        RecentIsOwn(a, c.value, now);
        LetGoIsInactive(a, c.value, aid, now);
        if c.value.aid == aid {
          DefaultIsBound(LetGoAll(a, c.value, aid, now), c.value.pid, survivor);
        }
        UnlinkDone(a, conn.db, c.value, aid, survivor, now);
        Record(a, conn.db, Unlinks(c.value, aid, survivor, now));
      }
      IsValid();
    }

    /** A verified game code links an account. */
    method LinkVerifiedGame(token: string, id: string, binding: string, now: int)
      returns (r: Result<(), AuthError>, c: Option<Current>)
      requires Valid()
      modifies this, conn
      ensures Valid() && LetIn(old(conn.db), c, token, now)
      ensures var a := AfterLook(old(conn.db), c, now);
              r.Ok? <==>
                c.Some? && Recent(a, c.value.pid, c.value, now)
                && TicketReady(a, id, binding, GameLink, Some(c.value.pid), now)
                && MayTake(a, Key(c.value.pid, AccountOf(a, id).aid))
      ensures ops == old(ops) + Looked(c, now) + if r.Ok? && c.Some? then [LinksGame(c.value, id, binding, now)] else []
    {
      hide *;
      c := Look(token, now);
      if c.None? {
        r := Err(SignInFailed);
        return;
      }
      ghost var a := conn.db;
      IsValid();
      ReachedIsSound(states, ops, a);
      LinkTarget(a, id, binding, c.value.pid, now);
      r := PortalAccounts.LinkVerifiedGame(conn, c.value, id, binding, now);
      if r.Ok? {
        LinkIsStep(a, conn.db, c.value, id, binding, now);
        Record(a, conn.db, LinksGame(c.value, id, binding, now));
      }
      IsValid();
    }

    /** A passkey is added; the challenge is spent by the attempt. */
    method FinishRegistration(token: string, binding: string, id: string, key: Option<string>, next: string, now: int)
      returns (r: Result<string, AuthError>, c: Option<Current>)
      requires Valid() && conn.db.installed && next !in conn.db.drawn
      modifies this, conn
      ensures Valid() && LetIn(old(conn.db), c, token, now)
      ensures var a := AfterLook(old(conn.db), c, now);
              && (r.Ok? <==> c.Some? && MayRegister(a, c.value, id, binding, key, now))
              && ops == old(ops) + Looked(c, now)
                        + (if c.Some? && MaySpend(a, c.value, id, binding, now)
                           then [Spends(id, binding, PasskeyRegister, Some(c.value.pid), now)] else [])
                        + if r.Ok? && c.Some? && key.Some? then [Registers(c.value, key.value, next, now)] else []
    {
      hide *;
      c := Look(token, now);
      if c.None? {
        r := Err(SignInFailed);
        return;
      }
      ghost var a := conn.db;
      IsValid();
      ReachedIsSound(states, ops, a);
      RegisterCases(a, c.value, id, binding, key, now);
      RegistrationCases(a, c.value, binding, id, key, now);
      ChallengeFacts(a);
      forall e, b {
        RegistrationEnded(a, b, e, c.value, binding, id, key, next, now);
      }
      AttemptSpends(a, c.value, binding, id, now);
      r := PortalAccounts.FinishRegistration(conn, c.value, binding, id, key, next, now);
      if MaySpend(a, c.value, id, binding, now) {
        SpendIsStep(a, id, binding, PasskeyRegister, Some(c.value.pid), now);
        Record(a, Consumed(a, id), Spends(id, binding, PasskeyRegister, Some(c.value.pid), now));
      }
      if r.Ok? {
        RecentIsOwn(a, c.value, now);
        SameSessions(a, id);
        StoredIs(a, conn.db, c.value, id, key.value, next);
        RegisterDone(a, conn.db, c.value, id, key.value, next, now);
        Record(Consumed(a, id), conn.db, Registers(c.value, key.value, next, now));
      }
      IsValid();
    }

    /** A session for whoever has proved a way in. */
    method CreateSession(pid: string, credential: Credential, authAt: Option<int>, aid: Option<int>, sid: string,
          token: string, now: int)
      returns (r: Result<string, AuthError>, ghost chosen: int)
      requires Valid() && conn.db.installed && sid !in conn.db.drawn && token !in conn.db.drawn
      modifies this, conn
      ensures Valid() && (r.Ok? <==> MayEnter(old(conn.db), pid, credential, aid))
      ensures ops == old(ops) + if r.Err? then [] else
                       [Enters(pid, credential, sid, token, if authAt.Some? then authAt.value else now, chosen, now)]
    {
      hide *;
      ghost var a := conn.db;
      IsValid();
      ReachedIsSound(states, ops, a);
      r, chosen := PortalAccounts.CreateSession(conn, pid, credential, authAt, aid, sid, token, now);
      if r.Ok? {
        var at := if authAt.Some? then authAt.value else now;
        EnterIsStep(a, conn.db, pid, credential, sid, token, at, aid, chosen, now);
        Record(a, conn.db, Enters(pid, credential, sid, token, at, chosen, now));
      }
      IsValid();
    }

    method NewChallenge(id: string, purpose: Purpose, binding: string, pid: Option<string>, context: Context,
          code: Option<string>, now: int)
      returns (r: Result<string, AuthError>)
      requires Valid() && conn.db.installed && id !in conn.db.drawn
      modifies this, conn
      ensures Valid() && r == Ok(id)
      ensures var c := Challenge(purpose, binding, pid, context, code, 0, None, false, now + CHALLENGE_TTL);
              ops == old(ops) + [Poses(id, c, now)]
    {
      hide *;
      ghost var a := conn.db;
      IsValid();
      ReachedIsSound(states, ops, a);
      r := PortalAccounts.NewChallenge(conn, id, purpose, binding, pid, context, code, now);
      ghost var c := Challenge(purpose, binding, pid, context, code, 0, None, false, now + CHALLENGE_TTL);
      PoseIsStep(a, conn.db, id, c, now);
      Record(a, conn.db, Poses(id, c, now));
      IsValid();
    }

    /** A code is judged; a wrong one is on record although the call fails. */
    method VerifyGameCode(id: string, binding: string, code: string, purpose: Purpose, pid: Option<string>, now: int)
      returns (r: Result<Context, AuthError>)
      requires Valid() && conn.db.installed
      modifies this, conn
      ensures Valid()
      ensures r.Ok? <==> MayJudge(old(conn.db), id, binding, purpose, pid, now) && IsCode(old(conn.db), id, code)
      ensures ops == old(ops) + if MayJudge(old(conn.db), id, binding, purpose, pid, now)
                                then [Judges(id, binding, purpose, pid, r.Ok?, now)] else []
    {
      hide *;
      ghost var a := conn.db;
      IsValid();
      ReachedIsSound(states, ops, a);
      JudgeCases(a, id, binding, code, purpose, pid, now);
      r := PortalAccounts.VerifyGameCode(conn, id, binding, code, purpose, pid, now);
      if MayJudge(a, id, binding, purpose, pid, now) {
        JudgeIsStep(a, conn.db, id, binding, purpose, pid, r.Ok?, now);
        Record(a, conn.db, Judges(id, binding, purpose, pid, r.Ok?, now));
      }
      IsValid();
    }

    method ConsumeChallenge(id: string, binding: string, purpose: Purpose, pid: Option<string>, now: int)
      returns (r: Result<Challenge, AuthError>)
      requires Valid() && conn.db.installed
      modifies this, conn
      ensures Valid() && (r.Ok? <==> Open(old(conn.db), id, binding, purpose, pid, now))
      ensures ops == old(ops) + if r.Ok? then [Spends(id, binding, purpose, pid, now)] else []
    {
      hide *;
      ghost var a := conn.db;
      IsValid();
      ReachedIsSound(states, ops, a);
      r := PortalAccounts.ConsumeChallenge(conn, id, binding, purpose, pid, now);
      if r.Ok? {
        SpendIsStep(a, id, binding, purpose, pid, now);
        Record(a, conn.db, Spends(id, binding, purpose, pid, now));
      }
      IsValid();
    }

    /** A verified game code founds a profile with a password. */
    method BootstrapPassword(id: string, binding: string, name: string, hash: string, sid: string, token: string,
          now: int)
      returns (r: Result<string, AuthError>)
      requires Valid() && conn.db.installed && sid !in conn.db.drawn && token !in conn.db.drawn
      modifies this, conn
      ensures Valid()
      ensures r.Ok? <==> && TicketReady(old(conn.db), id, binding, GameOnboard, None, now)
                         && MayFound(old(conn.db), AccountOf(old(conn.db), id), name)
      ensures ops == old(ops) + if r.Ok? then [FoundsByPassword(id, binding, name, hash, sid, token, now)] else []
    {
      hide *;
      ghost var a := conn.db;
      IsValid();
      ReachedIsSound(states, ops, a);
      r := PortalAccounts.BootstrapPassword(conn, id, binding, name, hash, sid, token, now);
      if r.Ok? {
        ReadyIsKnown(a, id, binding, GameOnboard, None, now);
        FoundIsStep(a, conn.db, id, binding, name, hash, sid, token, now);
        Record(a, conn.db, FoundsByPassword(id, binding, name, hash, sid, token, now));
      }
      IsValid();
    }

    /** The same with a passkey, whose own challenge is spent by the attempt. */
    method BootstrapPasskey(id: string, binding: string, key: Option<string>, sid: string, token: string, now: int)
      returns (r: Result<string, AuthError>)
      requires Valid() && conn.db.installed && sid !in conn.db.drawn && token !in conn.db.drawn
      modifies this, conn
      ensures Valid() && (r.Ok? <==> PasskeyAccepted(old(conn.db), id, binding, key, now))
      ensures ops == old(ops) + Attempting(old(conn.db), id, binding, now)
                     + if r.Ok? then KeyFounding(old(conn.db), id, binding, key, sid, token, now) else []
    {
      hide *;
      ghost var a := conn.db;
      IsValid();
      ReachedIsSound(states, ops, a);
      AttemptCases(a, id, binding, key, now);
      AttemptingIs(a, id, binding, now);
      ChallengeFacts(a);
      r := PortalAccounts.BootstrapPasskey(conn, id, binding, key, sid, token, now);
      if MayAttempt(a, id, binding, now) {
        AttemptIsOpen(a, id, binding, now);
        SpendIsStep(a, id, binding, PasskeyBootstrap, a.challenges[id].pid, now);
        Record(a, Consumed(a, id), Spends(id, binding, PasskeyBootstrap, a.challenges[id].pid, now));
      }
      if r.Ok? {
        FoundByKeyIsStep(a, conn.db, id, binding, key, sid, token, now);
        KeyFoundingIs(a, id, binding, key, sid, token, now);
        var row := a.challenges[id].context;
        Record(Consumed(a, id), conn.db,
               FoundsByPasskey(row.ticket, binding, row.name, key.value, sid, token, now));
      }
      IsValid();
    }

    /** The credential tables are set up; a second time changes nothing. */
    method Install() returns (r: Result<(), AuthError>)
      requires Valid()
      modifies this, conn
      ensures Valid() && r.Ok? && conn.db.installed
      ensures ops == old(ops) + if old(conn.db).installed then [] else [Installs(conn.db.owners)]
    {
      hide *;
      ghost var a := conn.db;
      IsValid();
      ReachedIsSound(states, ops, a);
      r := PortalAccounts.Install(conn);
      if !a.installed {
        InstallIsStep(a, conn.db);
        Record(a, conn.db, Installs(conn.db.owners));
      }
      IsValid();
    }

    /** A caller's own rewriting of one identity's links, between begin and finish. */
    method EditLinks(did: string, allowGrant: bool, after: Links, newPid: string)
      returns (r: Result<(), MigrationError>, ghost pid: string)
      requires Valid() && newPid !in conn.db.profiles
      modifies this, conn
      ensures var change := Change(did, allowGrant, old(conn.db).links);
              && Valid() && (MayEdit(old(conn.db), did) ==> IsChosen(old(conn.db).profiles, did, newPid, pid))
              && (r.Ok? <==> MayEdit(old(conn.db), did) && Acceptable(old(conn.db), after, change, pid))
              && (ops == old(ops) + if r.Ok? then [Edits(change, newPid, pid)] else [])
      ensures conn.db.links == if r.Ok? then after else old(conn.db).links
    {
      hide *;
      ghost var a := conn.db;
      IsValid();
      conn.IsIdle();
      pid := "";
      ReachedIsSound(states, ops, a);
      EditCases(a, did);
      var change := BeginLegacyLinks(conn, did, allowGrant);
      if change.Err? {
        conn.IsIdle();
        IsValid();
        r := Err(change.error);
        return;
      }
      conn.db := conn.db.(links := after);
      r, pid := FinishLegacyLinks(conn, change.value, newPid);
      if r.Ok? {
        conn.Commit();
        EditIsStep(a, conn.db, change.value, newPid, pid);
        Record(a, conn.db, Edits(change.value, newPid, pid));
      }
      conn.IsIdle();
      IsValid();
    }

    /** An item of a transfer plan. */
    method ApplyItem(i: TransferRelink.Item, newPid: string, now: int)
      returns (r: Result<(), TransferRelink.RelinkError>, ghost row: int, ghost pid: string)
      requires Valid() && newPid !in conn.db.profiles && i.from != i.to
      modifies this, conn
      ensures Valid()
      ensures r.Ok? <==> && TransferRelink.MayBegin(old(conn.db), i)
                         && Acceptable(old(conn.db), TransferRelink.RowsAfter(old(conn.db).links, i, row, now),
                                       TransferRelink.ChangeOf(old(conn.db), i), pid)
      ensures ops == old(ops) + if r.Ok? then [Relinks(i, row, newPid, pid, now)] else []
    {
      hide *;
      ghost var a := conn.db;
      IsValid();
      conn.IsIdle();
      ReachedIsSound(states, ops, a);
      r, row, pid := TransferRelink.ApplyItem(conn, i, newPid, now);
      if r.Ok? {
        RelinkIsStep(a, conn.db, i, row, newPid, pid, now);
        Record(a, conn.db, Relinks(i, row, newPid, pid, now));
      }
      conn.IsIdle();
      IsValid();
    }
  }
}
