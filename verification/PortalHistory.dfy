/** Where the things that a run relies on come from: which operation posed the
    challenge behind a ticket and which one verified it, which one made a session,
    saw it last and had it proved. The times and the fields are written out here, so
    that what is allowed at any moment is read off the record of what was done. */
module PortalHistory {
  import opened Wrappers
  import opened PortalTables
  import opened PortalIdentity
  import opened PortalSteps
  import opened PortalSessions
  import opened PortalAccounts
  import opened PortalRuns
  import TransferRelink

  // ---------------------------------------------------- what a step leaves alone

  /** Everything about a session but its account, its way in and whether it has ended. */
  predicate SameLife(s: Session, t: Session) {
    && t.token == s.token && t.pid == s.pid && t.authAt == s.authAt && t.createdAt == s.createdAt
    && t.lastSeen == s.lastSeen && t.expires == s.expires
  }

  ghost predicate SameLives(a: Db, b: Db) {
    b.sessions.Keys == a.sessions.Keys && forall i :: i in a.sessions ==> SameLife(a.sessions[i], b.sessions[i])
  }

  lemma SameLivesChain(a: Db, b: Db, c: Db)
    requires SameLives(a, b) && SameLives(b, c)
    ensures SameLives(a, c)
  {
  }

  lemma SignOutLives(a: Db, who: set<string>)
    ensures SameLives(a, SignOut(a, who)) && SignOut(a, who).challenges == a.challenges
  {
  }

  lemma RaiseLives(a: Db, pid: string)
    ensures SameLives(a, RaiseBoth(a, pid)) && RaiseBoth(a, pid).challenges == a.challenges
  {
  }

  lemma RepointLives(a: Db, sid: string, aid: int)
    requires sid in a.sessions && (aid != 0 ==> Key(a.sessions[sid].pid, aid) in a.bindings)
    ensures SameLives(a, Repointed(a, sid, aid)) && Repointed(a, sid, aid).challenges == a.challenges
  {
  }

  lemma LetGoLives(a: Db, c: Current, aid: int, now: int)
    requires Key(c.pid, aid) in a.bindings && LinkKnown(a, Key(c.pid, aid))
    ensures SameLives(a, LetGoAll(a, c, aid, now)) && LetGoAll(a, c, aid, now).challenges == a.challenges
  {
    hide SessionsOn, SameLives;
    SignOutLives(LetGo(a, Key(c.pid, aid), now), SessionsOn(a.sessions, c.pid, aid, c.sid));
    SameSessionsLive(a, LetGo(a, Key(c.pid, aid), now));
    SameLivesChain(a, LetGo(a, Key(c.pid, aid), now), LetGoAll(a, c, aid, now));
  }

  lemma SameSessionsLive(a: Db, b: Db)
    requires b.sessions == a.sessions
    ensures SameLives(a, b)
  {
  }

  lemma DropLeaves(a: Db, b: Db, c: Current, way: Way, now: int)
    requires DropStep(a, b, c, way, now)
    ensures SameLives(a, b) && b.challenges == a.challenges
  {
    hide Recent, MethodCount, HasPassword, HasDiscord, ActiveKeys, SessionsBy, SameLives, RaiseBoth, SignOut;
    var did :| HasWay(a, c.pid, way)
               && (way.DiscordWay? ==> did in a.providers && a.providers[did] == Provider(c.pid, false))
               && b == WayRemoved(a, c.pid, way, did);
    var m := if way.DiscordWay? then RaiseBoth(a, c.pid) else a;
    RaiseLives(a, c.pid);
    SameSessionsLive(a, a);
    var n := SignOut(m, SessionsBy(a.sessions, c.pid, way));
    SignOutLives(m, SessionsBy(a.sessions, c.pid, way));
    SameLivesChain(a, m, n);
    SameSessionsLive(n, b);
    SameLivesChain(a, n, b);
  }

  lemma UnlinkLeaves(a: Db, b: Db, c: Current, aid: int, survivor: int, now: int)
    requires UnlinkStep(a, b, c, aid, survivor, now)
    ensures SameLives(a, b) && b.challenges == a.challenges
  {
    hide SignedIn, Recent, LetGoAll, IsDefault, Repointed, SameLives;
    var m := LetGoAll(a, c, aid, now);
    LetGoLives(a, c, aid, now);
    if c.aid == aid {
      RepointLives(m, c.sid, survivor);
      SameLivesChain(a, m, b);
    }
  }

  lemma TakenLives(a: Db, k: Key, now: int)
    requires LinkKnown(a, k)
    ensures Taken(a, k, now).sessions == a.sessions && Taken(a, k, now).challenges == a.challenges
    ensures k in Taken(a, k, now).bindings
  {
    hide TakenBack, TakenOn;
    if k in a.bindings {
      TakenBackLives(a, k, now);
    } else {
      TakenOnLives(a, k, now);
    }
  }

  lemma TakenBackLives(a: Db, k: Key, now: int)
    requires k in a.bindings && (a.bindings[k].legacy.Some? ==> a.bindings[k].legacy.value in a.links)
    ensures TakenBack(a, k, now).sessions == a.sessions && TakenBack(a, k, now).challenges == a.challenges
    ensures k in TakenBack(a, k, now).bindings
  {
  }

  lemma TakenOnLives(a: Db, k: Key, now: int)
    ensures TakenOn(a, k, now).sessions == a.sessions && TakenOn(a, k, now).challenges == a.challenges
    ensures k in TakenOn(a, k, now).bindings
  {
  }

  lemma MoveLives(a: Db, c: Current, aid: int)
    requires c.sid in a.sessions && (aid != 0 ==> Key(a.sessions[c.sid].pid, aid) in a.bindings)
    ensures SameLives(a, AndMoved(a, c, aid)) && AndMoved(a, c, aid).challenges == a.challenges
  {
    hide Repointed, SameLives;
    if c.aid == 0 {
      RepointLives(a, c.sid, aid);
    } else {
      SameSessionsLive(a, a);
    }
  }

  lemma JoinLives(a: Db, c: Current, aid: int, id: string, now: int)
    requires LinkKnown(a, Key(c.pid, aid)) && id in a.challenges
    requires c.sid in a.sessions && a.sessions[c.sid].pid == c.pid
    ensures var b := Joined(a, c, aid, id, now);
            SameLives(a, b) && b.challenges == a.challenges[id := a.challenges[id].(consumed := true)]
  {
    hide LinkKnown, Taken, AndMoved, SameLives;
    var m := Taken(a, Key(c.pid, aid), now);
    TakenLives(a, Key(c.pid, aid), now);
    SameSessionsLive(a, m);
    MoveLives(m, c, aid);
    var n := AndMoved(m, c, aid);
    SameLivesChain(a, m, n);
    SameSessionsLive(n, Consumed(n, id));
    SameLivesChain(a, n, Consumed(n, id));
  }

  lemma FoundLives(a: Db, k: Key, name: string, id: string, now: int)
    requires id in a.challenges && LinkKnown(WithProfile(a, k.pid), k)
    ensures var b := Founded(a, k, name, id, now);
            b.sessions == a.sessions && b.challenges == a.challenges[id := a.challenges[id].(consumed := true)]
  {
    hide LinkKnown, Taken;
    TakenLives(WithProfile(a, k.pid), k, now);
  }

  lemma EditLeaves(a: Db, b: Db, change: Change, newPid: string, pid: string)
    requires EditStep(a, b, change, newPid, pid)
    ensures SameLives(a, b) && b.challenges == a.challenges
  {
    hide IsChosen, Acceptable, Rebound, PortalIdentity.Claimed, Changed, SameLives;
    SameSessionsLive(a, b);
  }

  lemma RelinkLeaves(a: Db, b: Db, op: Op)
    requires op.Relinks? && TransferRelink.ItemStep(a, b, op.item, op.row, op.newPid, op.pid, op.now)
    ensures SameLives(a, b) && b.challenges == a.challenges
  {
    hide IsChosen, Acceptable, Rebound, PortalIdentity.Claimed, Changed, TransferRelink.MayBegin;
    hide TransferRelink.IsRowFor, TransferRelink.RowsAfter, TransferRelink.ChangeOf, TransferRelink.Follows;
  }

  /** The operations that neither make a session nor renew one, and do not touch a
      challenge either. */
  predicate Apart(op: Op) {
    || op.Installs? || op.Renames? || op.DropsWay? || op.Ends? || op.LinksDiscord? || op.Unlinks? || op.Edits?
    || op.Relinks?
  }

  lemma ApartLeaves(a: Db, b: Db, op: Op)
    requires Step(a, b, op) && Apart(op)
    ensures SameLives(a, b) && b.challenges == a.challenges
  {
    hide InstallStep, LookStep, EnterStep, PasswordStep, DropStep, SwitchStep, EndStep, SameLives, Recent, NameFree;
    hide UnlinkStep, PoseStep, JudgeStep, SpendStep, RegisterStep, LinkStep, PasswordFoundStep;
    hide PasskeyFoundStep, EditStep, TransferRelink.ItemStep;
    match op {
      case Installs(owners) => InstallLeaves(a, b, owners);
      case Renames(c, name, now) => SameSessionsLive(a, b);
      case DropsWay(c, way, now) => DropLeaves(a, b, c, way, now);
      case Ends(target) => EndLeaves(a, b, target);
      case LinksDiscord(c, did, now) => SameSessionsLive(a, b);
      case Unlinks(c, aid, survivor, now) => UnlinkLeaves(a, b, c, aid, survivor, now);
      case Edits(change, newPid, pid) => EditLeaves(a, b, change, newPid, pid);
      case Relinks(_, _, _, _, _) => RelinkLeaves(a, b, op);
    }
  }

  lemma InstallLeaves(a: Db, b: Db, owners: Owners)
    requires InstallStep(a, b, owners)
    ensures SameLives(a, b) && b.challenges == a.challenges
  {
    hide IsOwner, AccountsOf;
  }

  lemma EndLeaves(a: Db, b: Db, target: string)
    requires EndStep(a, b, target)
    ensures SameLives(a, b) && b.challenges == a.challenges
  {
    hide SignOut, SameLives;
    SignOutLives(a, {target});
  }

  // -------------------------------------------------------- how challenges change

  /** The operation uses the challenge up. */
  predicate Consumes(op: Op, id: string) {
    (op.Spends? || op.LinksGame? || op.FoundsByPassword? || op.FoundsByPasskey?) && op.id == id
  }

  /** Where a challenge that is there after a step comes from, and all that the step
      did to it: it was posed, judged, used up, or left alone. */
  ghost predicate ChallengeFrom(a: Db, b: Db, op: Op, id: string)
    requires id in b.challenges
  {
    var d := b.challenges[id];
    if op.Poses? && op.id == id then
      && d == op.challenge && d.attempts == 0 && d.verifiedAt.None? && !d.consumed && d.expires == op.now + 300
    else
      && id in a.challenges
      && var c := a.challenges[id];
      if op.Judges? && op.id == id then
        && c.binding == op.binding && c.purpose == op.purpose && c.pid == op.profile
        && !c.consumed && c.verifiedAt.None? && c.attempts < 5 && op.now <= c.expires
        && d == if op.good then c.(attempts := c.attempts + 1, verifiedAt := Some(op.now), expires := op.now + 600)
                else c.(attempts := c.attempts + 1, consumed := c.attempts == 4)
      else d == c.(consumed := c.consumed || Consumes(op, id))
  }

  lemma PoseGives(a: Db, b: Db, op: Op, id: string)
    requires op.Poses? && PoseStep(a, b, op.id, op.challenge, op.now) && id in b.challenges
    ensures ChallengeFrom(a, b, op, id)
  {
  }

  lemma JudgeGives(a: Db, b: Db, op: Op, id: string)
    requires op.Judges? && JudgeStep(a, b, op.id, op.binding, op.purpose, op.profile, op.good, op.now)
    requires id in b.challenges && Inv(a)
    ensures ChallengeFrom(a, b, op, id)
  {
    ChallengeFacts(a);
    hide Inv;
  }

  lemma SpendGives(a: Db, b: Db, op: Op, id: string)
    requires op.Spends? && SpendStep(a, b, op.id, op.binding, op.purpose, op.profile, op.now) && id in b.challenges
    ensures ChallengeFrom(a, b, op, id)
  {
  }

  lemma LeftGives(a: Db, b: Db, op: Op, id: string)
    requires b.challenges == a.challenges && !op.Poses? && !op.Judges? && !Consumes(op, id) && id in b.challenges
    ensures ChallengeFrom(a, b, op, id)
  {
  }

  lemma UseGives(a: Db, b: Db, op: Op, id: string)
    requires op.LinksGame? || op.FoundsByPassword? || op.FoundsByPasskey?
    requires op.id in a.challenges && b.challenges == a.challenges[op.id := a.challenges[op.id].(consumed := true)]
    requires id in b.challenges
    ensures ChallengeFrom(a, b, op, id)
  {
  }

  lemma LinkGives(a: Db, b: Db, op: Op)
    requires op.LinksGame? && LinkStep(a, b, op.c, op.id, op.binding, op.now)
    ensures op.id in a.challenges && b.challenges == a.challenges[op.id := a.challenges[op.id].(consumed := true)]
    ensures SameLives(a, b)
  {
    hide SignedIn, Recent, TicketReady, MayTake, LinkKnown, Joined, AccountOf, SameLives;
    ReadyIsKnown(a, op.id, op.binding, GameLink, Some(op.c.pid), op.now);
    JoinLives(a, op.c, AccountOf(a, op.id).aid, op.id, op.now);
  }

  lemma MadeChallenges(a: Db, k: Key, name: string, id: string, now: int, n: Db, c: Credential, sid: string,
        token: string)
    requires id in a.challenges && LinkKnown(WithProfile(a, k.pid), k)
    requires n == Founded(a, k, name, id, now).(passwords := n.passwords, passkeys := n.passkeys) && k in n.bindings
    ensures var b := SessionMade(n, k.pid, c, sid, token, now, k.aid, now);
            && b.challenges == a.challenges[id := a.challenges[id].(consumed := true)]
            && sid in b.sessions && b.sessions == a.sessions[sid := b.sessions[sid]]
            && MadeAt(b.sessions[sid], k.pid, token, now, now)
  {
    hide LinkKnown, Founded;
    FoundLives(a, k, name, id, now);
  }

  /** A session as it is made. */
  predicate MadeAt(s: Session, pid: string, token: string, authAt: int, now: int) {
    && s.pid == pid && s.token == token && s.authAt == authAt && s.createdAt == now && s.lastSeen == now
    && s.expires == now + 30 * 86400
  }

  lemma FoundGives(a: Db, b: Db, op: Op)
    requires op.FoundsByPassword? || op.FoundsByPasskey?
    requires Step(a, b, op)
    ensures op.id in a.challenges && b.challenges == a.challenges[op.id := a.challenges[op.id].(consumed := true)]
    ensures op.sid in b.sessions && b.sessions == a.sessions[op.sid := b.sessions[op.sid]]
    ensures MadeAt(b.sessions[op.sid], AccountOf(a, op.id).pid, op.token, op.now, op.now)
    ensures op.sid !in a.drawn
  {
    hide InstallStep, LookStep, EnterStep, PasswordStep, DropStep, SwitchStep, EndStep, SameLives, Recent, NameFree;
    hide UnlinkStep, PoseStep, JudgeStep, SpendStep, RegisterStep, LinkStep, RenameStep, DiscordStep;
    hide EditStep, TransferRelink.ItemStep, TicketReady, MayFound, LinkKnown, Founded, SessionMade, AccountOf, MadeAt;
    ReadyIsKnown(a, op.id, op.binding, GameOnboard, None, op.now);
    var k := AccountOf(a, op.id);
    if op.FoundsByPassword? {
      MadeChallenges(a, k, op.name, op.id, op.now,
                     PutPassword(Founded(a, k, op.name, op.id, op.now), k.pid, op.hash, 1),
                     PasswordVersion(1), op.sid, op.token);
    } else {
      MadeChallenges(a, k, op.name, op.id, op.now,
                     PutPasskey(Founded(a, k, op.name, op.id, op.now), op.key, Passkey(k.pid, false)),
                     PasskeyId(op.key), op.sid, op.token);
    }
  }

  /** The operations that make a session, or give one a new token or time. */
  lemma SessionOpLeaves(a: Db, b: Db, op: Op)
    requires Step(a, b, op)
    requires op.Looks? || op.Enters? || op.SetsPassword? || op.Switches? || op.Registers?
    ensures b.challenges == a.challenges
  {
    hide InstallStep, DropStep, EndStep, Recent, NameFree, SignedIn, Usable, AccountOpen, CredentialActive;
    hide UnlinkStep, PoseStep, JudgeStep, SpendStep, LinkStep, RenameStep, DiscordStep, PasswordFoundStep;
    hide EditStep, TransferRelink.ItemStep, PasskeyFoundStep, OthersOf, ActiveKeys;
  }

  /** So it is for every operation. */
  lemma StepGivesChallenge(a: Db, b: Db, op: Op, id: string)
    requires Inv(a) && Step(a, b, op) && id in b.challenges
    ensures ChallengeFrom(a, b, op, id)
  {
    hide Inv, InstallStep, LookStep, EnterStep, PasswordStep, RenameStep, DropStep, SwitchStep, EndStep, DiscordStep;
    hide UnlinkStep, PoseStep, JudgeStep, SpendStep, RegisterStep, LinkStep, PasswordFoundStep, PasskeyFoundStep;
    hide EditStep, TransferRelink.ItemStep, ChallengeFrom, SameLives, AccountOf, MadeAt;
    if op.Poses? {
      PoseGives(a, b, op, id);
    } else if op.Judges? {
      JudgeGives(a, b, op, id);
    } else if op.Spends? {
      SpendGives(a, b, op, id);
    } else if op.LinksGame? {
      LinkGives(a, b, op);
      UseGives(a, b, op, id);
    } else if op.FoundsByPassword? || op.FoundsByPasskey? {
      FoundGives(a, b, op);
      UseGives(a, b, op, id);
    } else {
      if Apart(op) {
        ApartLeaves(a, b, op);
      } else {
        SessionOpLeaves(a, b, op);
      }
      LeftGives(a, b, op, id);
    }
  }

  // ----------------------------------------------------------- tickets over runs

  /** The operation posed this challenge: for this browser, purpose and profile. */
  predicate Posed(op: Op, id: string, binding: string, purpose: Purpose, pid: Option<string>) {
    && op.Poses? && op.id == id && op.challenge.binding == binding && op.challenge.purpose == purpose
    && op.challenge.pid == pid
  }

  /** The operation judged a code against this challenge and found it right. */
  predicate Verified(op: Op, id: string, binding: string, purpose: Purpose, pid: Option<string>) {
    && op.Judges? && op.good && op.id == id && op.binding == binding && op.purpose == purpose && op.profile == pid
  }

  /** The challenge as the record accounts for it: posed at `m`, verified at `k` if it
      was, good until five minutes after the first or ten after the second. */
  ghost predicate Accounted(ops: seq<Op>, n: nat, id: string, c: Challenge, m: nat, k: nat)
    requires n <= |ops|
  {
    && m < n && Posed(ops[m], id, c.binding, c.purpose, c.pid)
    && c.context == ops[m].challenge.context && c.code == ops[m].challenge.code
    && if c.verifiedAt.None? then c.expires == ops[m].now + 300
       else
         && m < k < n && Verified(ops[k], id, c.binding, c.purpose, c.pid) && c.verifiedAt == Some(ops[k].now)
         && c.expires == ops[k].now + 600 && ops[k].now <= ops[m].now + 300
  }

  lemma AccountedMore(ops: seq<Op>, n: nat, id: string, c: Challenge, d: Challenge, m: nat, k: nat)
    requires n < |ops| && Accounted(ops, n, id, c, m, k) && d == c.(attempts := d.attempts, consumed := d.consumed)
    ensures Accounted(ops, n + 1, id, d, m, k)
  {
  }

  lemma AccountedStep(a: Db, b: Db, ops: seq<Op>, n: nat, id: string, m: nat, k: nat)
    requires n < |ops| && id in b.challenges && ChallengeFrom(a, b, ops[n], id)
    requires !(ops[n].Poses? && ops[n].id == id)
    requires id in a.challenges && Accounted(ops, n, id, a.challenges[id], m, k)
    ensures Accounted(ops, n + 1, id, b.challenges[id], m, if ops[n].Judges? && ops[n].id == id then n else k)
  {
    var c, d := a.challenges[id], b.challenges[id];
    if ops[n].Judges? && ops[n].id == id && ops[n].good {
    } else {
      AccountedMore(ops, n, id, c, d, m, if ops[n].Judges? && ops[n].id == id then n else k);
    }
  }

  lemma {:induction false} EveryChallengeIsAccounted(states: seq<Db>, ops: seq<Op>, n: nat, id: string)
    returns (m: nat, k: nat)
    requires IsRun(states, ops) && n <= |ops| && id in states[n].challenges
    ensures Accounted(ops, n, id, states[n].challenges[id], m, k)
  {
    hide Step, IsStart, Inv, Accounted, ChallengeFrom;
    if n == 0 {
      StartsEmpty(states, ops);
    } else {
      RunStep(states, ops, n - 1);
      RunIsSound(states, ops, n - 1);
      var a, b, op := states[n - 1], states[n], ops[n - 1];
      StepGivesChallenge(a, b, op, id);
      if op.Poses? && op.id == id {
        m, k := n - 1, 0;
        JustPosed(a, b, ops, n - 1, id);
      } else {
        FromBefore(a, b, op, id);
        m, k := EveryChallengeIsAccounted(states, ops, n - 1, id);
        AccountedStep(a, b, ops, n - 1, id, m, k);
        k := if op.Judges? && op.id == id then n - 1 else k;
      }
    }
  }

  lemma StartsEmpty(states: seq<Db>, ops: seq<Op>)
    requires IsRun(states, ops)
    ensures states[0].challenges == map[] && states[0].sessions == map[] && states[0].owners == map[]
  {
    assert NotYet(states[0]);
  }

  lemma JustPosed(a: Db, b: Db, ops: seq<Op>, n: nat, id: string)
    requires n < |ops| && ops[n].Poses? && ops[n].id == id && id in b.challenges && ChallengeFrom(a, b, ops[n], id)
    ensures Accounted(ops, n + 1, id, b.challenges[id], n, 0)
  {
  }

  lemma FromBefore(a: Db, b: Db, op: Op, id: string)
    requires id in b.challenges && ChallengeFrom(a, b, op, id) && !(op.Poses? && op.id == id)
    ensures id in a.challenges
  {
  }

  /** Who answers a challenge: under which identifier, from which browser, for what
      purpose and profile, and when. */
  predicate Answers(op: Op, id: string, binding: string, purpose: Purpose, pid: Option<string>, now: int) {
    match op
    case Judges(i, b, p, q, _, t) => i == id && b == binding && p == purpose && q == pid && t == now
    case Spends(i, b, p, q, t) => i == id && b == binding && p == purpose && q == pid && t == now
    case LinksGame(c, i, b, t) => i == id && b == binding && purpose == GameLink && pid == Some(c.pid) && t == now
    case FoundsByPassword(i, b, _, _, _, _, t) =>
      i == id && b == binding && purpose == GameOnboard && pid == None && t == now
    case FoundsByPasskey(i, b, _, _, _, _, t) =>
      i == id && b == binding && purpose == GameOnboard && pid == None && t == now
    case _ => false
  }

  /** What an answer finds: the challenge, its own and unused. */
  lemma AnswerFinds(a: Db, b: Db, op: Op, id: string, binding: string, purpose: Purpose, pid: Option<string>, now: int)
    requires Step(a, b, op) && Answers(op, id, binding, purpose, pid, now)
    ensures id in a.challenges
    ensures var c := a.challenges[id];
            && c.binding == binding && c.purpose == purpose && c.pid == pid && !c.consumed && now <= c.expires
            && (op.LinksGame? || op.FoundsByPassword? || op.FoundsByPasskey? ==>
                  c.verifiedAt.Some? && 0 <= now - c.verifiedAt.value <= 600)
  {
    hide InstallStep, LookStep, EnterStep, PasswordStep, DropStep, SwitchStep, EndStep, Recent, RenameStep;
    hide UnlinkStep, PoseStep, RegisterStep, DiscordStep, SignedIn, MayTake, LinkKnown, Joined, AccountOf;
    hide EditStep, TransferRelink.ItemStep, MayFound, Founded, SessionMade, Consumed, Tried;
  }

  /** Whatever answers a challenge comes from the browser it was posed to, for the
      purpose and the profile it was posed for; codes, within five minutes. */
  lemma AnsweredAsPosed(states: seq<Db>, ops: seq<Op>, n: nat, id: string, binding: string, purpose: Purpose,
        pid: Option<string>, now: int)
    requires IsRun(states, ops) && n < |ops| && Answers(ops[n], id, binding, purpose, pid, now)
    ensures exists m :: 0 <= m < n && Posed(ops[m], id, binding, purpose, pid)
                        && (ops[n].Judges? ==> now <= ops[m].now + 300)
  {
    RunStep(states, ops, n);
    AnswerFinds(states[n], states[n + 1], ops[n], id, binding, purpose, pid, now);
    RunIsSound(states, ops, n);
    if ops[n].Judges? {
      JudgedOnce(states[n], states[n + 1], ops[n]);
    }
    hide Step, IsStart, Inv, IsRun, Answers, Posed, Verified;
    var m, k := EveryChallengeIsAccounted(states, ops, n, id);
    assert Posed(ops[m], id, binding, purpose, pid);
  }

  lemma JudgedOnce(a: Db, b: Db, op: Op)
    requires Step(a, b, op) && op.Judges?
    ensures op.id in a.challenges && a.challenges[op.id].verifiedAt.None?
  {
    assert JudgeStep(a, b, op.id, op.binding, op.purpose, op.profile, op.good, op.now);
    hide Step;
  }

  /** The account is held by the profile, which is its owner on record. */
  predicate Holds(db: Db, pid: string, aid: int) {
    && Key(pid, aid) in db.bindings && db.bindings[Key(pid, aid)].revokedAt.None?
    && aid in db.owners && db.owners[aid] == Some(pid)
  }

  /** The operation uses a verified game code. */
  predicate Redeems(op: Op, id: string, binding: string, purpose: Purpose, pid: Option<string>, now: int) {
    Answers(op, id, binding, purpose, pid, now) && !op.Judges? && !op.Spends?
  }

  /** Whose the account becomes: whoever asked for the link, or the new profile. */
  function Taker(op: Op, context: Context): string {
    if op.LinksGame? then op.c.pid else context.pid
  }

  lemma LinkTakes(a: Db, b: Db, op: Op)
    requires op.LinksGame? && Inv(a) && LinkStep(a, b, op.c, op.id, op.binding, op.now)
    ensures op.id in a.challenges
    ensures var aid := a.challenges[op.id].context.aid;
            && Holds(b, op.c.pid, aid) && !Holds(a, op.c.pid, aid)
            && (aid in a.owners ==> a.owners[aid] == Some(op.c.pid))
  {
    var k := AccountOf(a, op.id);
    MayTakeMeans(a, Key(op.c.pid, k.aid));
    hide Inv, SignedIn, Recent, TicketReady, MayTake, LinkKnown, Joined, Active;
    ReadyIsKnown(a, op.id, op.binding, GameLink, Some(op.c.pid), op.now);
    JoinedKeeps(a, op.c, k.aid, op.id, op.now);
    ActiveMeans(b, Key(op.c.pid, k.aid));
  }

  lemma ActiveMeans(db: Db, k: Key)
    requires k in db.bindings && Active(db.bindings[k])
    ensures db.bindings[k].revokedAt.None?
  {
  }

  lemma MayTakeMeans(a: Db, k: Key)
    ensures MayTake(a, k) ==> !Holds(a, k.pid, k.aid) && (k.aid in a.owners ==> a.owners[k.aid] == Some(k.pid))
  {
  }

  lemma MayFoundMeans(a: Db, k: Key, name: string)
    requires MayFound(a, k, name)
    ensures k.aid !in a.owners && k.pid !in a.profiles
  {
  }

  lemma MadeTakes(a: Db, k: Key, name: string, id: string, now: int, n: Db, c: Credential, sid: string, token: string)
    requires References(a) && MayFound(a, k, name) && id in a.challenges && LinkKnown(WithProfile(a, k.pid), k)
    requires n == Founded(a, k, name, id, now).(passwords := n.passwords, passkeys := n.passkeys) && k in n.bindings
    ensures var b := SessionMade(n, k.pid, c, sid, token, now, k.aid, now);
            Holds(b, k.pid, k.aid) && k.pid in b.profiles && !b.profiles[k.pid].disabled
  {
    hide References, MayFound, LinkKnown, Founded;
    FoundedShape(a, k, name, id, now);
  }

  lemma FoundTakes(a: Db, b: Db, op: Op)
    requires op.FoundsByPassword? || op.FoundsByPasskey?
    requires Inv(a) && Step(a, b, op)
    ensures op.id in a.challenges
    ensures var context := a.challenges[op.id].context;
            && Holds(b, context.pid, context.aid) && context.aid !in a.owners
            && context.pid in b.profiles && !b.profiles[context.pid].disabled && context.pid !in a.profiles
  {
    SessionFacts(a);
    hide InstallStep, LookStep, EnterStep, PasswordStep, DropStep, SwitchStep, EndStep, Recent, NameFree, Inv;
    hide UnlinkStep, PoseStep, JudgeStep, SpendStep, RegisterStep, LinkStep, RenameStep, DiscordStep, MayFound;
    hide EditStep, TransferRelink.ItemStep, TicketReady, LinkKnown, Founded, SessionMade, References, Holds;
    ReadyIsKnown(a, op.id, op.binding, GameOnboard, None, op.now);
    var k := AccountOf(a, op.id);
    MayFoundMeans(a, k, op.name);
    if op.FoundsByPassword? {
      MadeTakes(a, k, op.name, op.id, op.now,
                PutPassword(Founded(a, k, op.name, op.id, op.now), k.pid, op.hash, 1),
                PasswordVersion(1), op.sid, op.token);
    } else {
      MadeTakes(a, k, op.name, op.id, op.now,
                PutPasskey(Founded(a, k, op.name, op.id, op.now), op.key, Passkey(k.pid, false)),
                PasskeyId(op.key), op.sid, op.token);
    }
  }

  /** What a ticket was made for, and that it gave just that: an account that was free
      or one's own, and not held before. */
  ghost predicate GivenAsPosed(a: Db, b: Db, op: Op, context: Context) {
    && Holds(b, Taker(op, context), context.aid) && !Holds(a, Taker(op, context), context.aid)
    && (context.aid in a.owners ==> op.LinksGame? && a.owners[context.aid] == Some(op.c.pid))
    && (!op.LinksGame? ==> context.pid !in a.profiles && context.pid in b.profiles && !b.profiles[context.pid].disabled)
  }

  lemma RedeemGives(a: Db, b: Db, op: Op, id: string, binding: string, purpose: Purpose, pid: Option<string>, now: int)
    requires Inv(a) && Step(a, b, op) && Redeems(op, id, binding, purpose, pid, now)
    ensures id in a.challenges && GivenAsPosed(a, b, op, a.challenges[id].context)
  {
    if op.LinksGame? {
      assert LinkStep(a, b, op.c, op.id, op.binding, op.now);
      hide Inv, Step, LinkStep, Holds;
      LinkTakes(a, b, op);
    } else {
      hide Inv, Step;
      FoundTakes(a, b, op);
    }
  }

  /** A game code opens an account to nobody but the browser it was sent for. Whenever
      one is used, an earlier operation posed the challenge, for this browser, purpose
      and profile; a later one judged the right code, in time, at most ten minutes ago;
      and the account taken is the one that was named when it was posed. */
  lemma TicketsServeTheirBrowser(states: seq<Db>, ops: seq<Op>, n: nat, id: string, binding: string, purpose: Purpose,
        pid: Option<string>, now: int)
    requires IsRun(states, ops) && n < |ops| && Redeems(ops[n], id, binding, purpose, pid, now)
    ensures exists m, k :: 0 <= m < k < n
              && Posed(ops[m], id, binding, purpose, pid) && Verified(ops[k], id, binding, purpose, pid)
              && ops[k].now <= ops[m].now + 300 && 0 <= now - ops[k].now <= 600
              && GivenAsPosed(states[n], states[n + 1], ops[n], ops[m].challenge.context)
  {
    RunStep(states, ops, n);
    AnswerFinds(states[n], states[n + 1], ops[n], id, binding, purpose, pid, now);
    RunIsSound(states, ops, n);
    hide Step, IsStart, Inv, IsRun, GivenAsPosed, Posed, Verified;
    RedeemGives(states[n], states[n + 1], ops[n], id, binding, purpose, pid, now);
    var m, k := EveryChallengeIsAccounted(states, ops, n, id);
    assert Posed(ops[m], id, binding, purpose, pid) && Verified(ops[k], id, binding, purpose, pid);
  }

  // ------------------------------------------------------- how sessions change

  /** The operation makes the session. */
  predicate Makes(op: Op, i: string) {
    (op.Enters? || op.FoundsByPassword? || op.FoundsByPasskey?) && op.sid == i
  }

  /** When the profile behind a new session was last proved to be its owner's. */
  function ProofTime(op: Op): int
    requires op.Enters? || op.FoundsByPassword? || op.FoundsByPasskey?
  {
    if op.Enters? then op.authAt else op.now
  }

  /** The operation gives a session a new token. */
  predicate Renews(op: Op, i: string) {
    (op.SetsPassword? || op.Registers? || op.Switches?) && op.c.sid == i
  }

  /** Where a session that is there after a step comes from, and all that the step did
      to its token and its times. */
  ghost predicate SessionFrom(a: Db, b: Db, op: Op, i: string)
    requires i in b.sessions
  {
    var t := b.sessions[i];
    if Makes(op, i) then
      && i !in a.sessions && t.token == op.token && t.createdAt == op.now && t.lastSeen == op.now
      && t.expires == op.now + 30 * 86400 && t.authAt == ProofTime(op)
    else
      && i in a.sessions
      && var s := a.sessions[i];
      && t.pid == s.pid && t.createdAt == s.createdAt && t.expires == s.expires
      && t.token == (if Renews(op, i) then op.token else s.token)
      && t.lastSeen == (if op.Looks? && op.sid == i && op.now - s.lastSeen > 60 then op.now else s.lastSeen)
      && t.authAt == (if op.SetsPassword? && op.c.sid == i then op.now else s.authAt)
  }

  lemma SameGives(a: Db, b: Db, op: Op, i: string)
    requires SameLives(a, b) && i in b.sessions && !Makes(op, i) && !Renews(op, i) && !op.Looks?
    ensures SessionFrom(a, b, op, i)
  {
  }

  lemma LookGives(a: Db, b: Db, op: Op, i: string)
    requires op.Looks? && LookStep(a, b, op.sid, op.now) && i in b.sessions
    ensures SessionFrom(a, b, op, i)
  {
    hide Usable;
  }

  lemma EnterGives(a: Db, b: Db, op: Op, i: string)
    requires Inv(a) && op.Enters? && i in b.sessions
    requires EnterStep(a, b, op.pid, op.credential, op.sid, op.token, op.authAt, op.aid, op.now)
    ensures SessionFrom(a, b, op, i)
  {
    UndrawnIsNew(a, op.sid);
    hide Inv, MayEnter, CredentialActive, SignedUp;
    SignedUpSame(a, op.pid);
  }

  lemma PasswordGives(a: Db, b: Db, op: Op, i: string)
    requires op.SetsPassword? && PasswordStep(a, b, op.c, op.name, op.hash, op.token, op.now) && i in b.sessions
    ensures SessionFrom(a, b, op, i)
  {
    RecentIsOwn(a, op.c, op.now);
    PasswordSetSessions(a, op.c, op.name, op.hash, op.token, op.now);
    hide Recent, NameFree, PasswordSet, OthersOf;
  }

  lemma SwitchGives(a: Db, b: Db, op: Op, i: string)
    requires op.Switches? && SwitchStep(a, b, op.c, op.aid, op.token, op.now) && i in b.sessions
    ensures SessionFrom(a, b, op, i)
  {
    hide Usable, AccountOpen, CredentialActive;
  }

  lemma RegisterGives(a: Db, b: Db, op: Op, i: string)
    requires op.Registers? && RegisterStep(a, b, op.c, op.key, op.token, op.now) && i in b.sessions
    ensures SessionFrom(a, b, op, i)
  {
    RecentIsOwn(a, op.c, op.now);
    hide Recent, ActiveKeys, OthersOf;
  }

  lemma MadeGives(a: Db, b: Db, op: Op, i: string, pid: string)
    requires (op.FoundsByPassword? || op.FoundsByPasskey?) && i in b.sessions && op.sid in b.sessions
    requires op.sid !in a.sessions && b.sessions == a.sessions[op.sid := b.sessions[op.sid]]
    requires MadeAt(b.sessions[op.sid], pid, op.token, op.now, op.now)
    ensures SessionFrom(a, b, op, i)
  {
  }

  lemma UndrawnIsNew(a: Db, sid: string)
    requires Inv(a) && sid !in a.drawn
    ensures sid !in a.sessions
  {
    SessionFacts(a);
    hide Inv;
  }

  lemma FoundedGives(a: Db, b: Db, op: Op, i: string)
    requires Inv(a) && (op.FoundsByPassword? || op.FoundsByPasskey?) && Step(a, b, op) && i in b.sessions
    ensures SessionFrom(a, b, op, i)
  {
    hide *;
    FoundGives(a, b, op);
    UndrawnIsNew(a, op.sid);
    MadeGives(a, b, op, i, AccountOf(a, op.id).pid);
  }

  lemma ChallengeOpSessions(a: Db, b: Db, op: Op)
    requires Step(a, b, op) && (op.Poses? || op.Judges? || op.Spends?)
    ensures SameLives(a, b)
  {
    hide InstallStep, LookStep, EnterStep, PasswordStep, RenameStep, DropStep, SwitchStep, EndStep, DiscordStep;
    hide UnlinkStep, RegisterStep, LinkStep, PasswordFoundStep, PasskeyFoundStep, SameLives, Open;
    hide EditStep, TransferRelink.ItemStep;
    SameSessionsLive(a, b);
  }

  lemma RenewalGives(a: Db, b: Db, op: Op, i: string)
    requires op.Looks? || op.Enters? || op.SetsPassword? || op.Switches? || op.Registers?
    requires Inv(a) && Step(a, b, op) && i in b.sessions
    ensures SessionFrom(a, b, op, i)
  {
    hide Inv, InstallStep, LookStep, EnterStep, PasswordStep, RenameStep, DropStep, SwitchStep, EndStep, DiscordStep;
    hide UnlinkStep, PoseStep, JudgeStep, SpendStep, RegisterStep, LinkStep, PasswordFoundStep, PasskeyFoundStep;
    hide EditStep, TransferRelink.ItemStep, SessionFrom, SameLives;
    if op.Looks? {
      LookGives(a, b, op, i);
    } else if op.Enters? {
      EnterGives(a, b, op, i);
    } else if op.SetsPassword? {
      PasswordGives(a, b, op, i);
    } else if op.Switches? {
      SwitchGives(a, b, op, i);
    } else {
      RegisterGives(a, b, op, i);
    }
  }

  lemma StepOfLink(a: Db, b: Db, op: Op)
    requires Step(a, b, op) && op.LinksGame?
    ensures LinkStep(a, b, op.c, op.id, op.binding, op.now)
  {
    hide LinkStep;
  }

  lemma StepGivesSession(a: Db, b: Db, op: Op, i: string)
    requires Inv(a) && Step(a, b, op) && i in b.sessions
    ensures SessionFrom(a, b, op, i)
  {
    hide Inv, Step, SessionFrom, SameLives, LinkStep;
    if op.FoundsByPassword? || op.FoundsByPasskey? {
      FoundedGives(a, b, op, i);
    } else if op.Looks? || op.Enters? || op.SetsPassword? || op.Switches? || op.Registers? {
      RenewalGives(a, b, op, i);
    } else {
      if op.LinksGame? {
        StepOfLink(a, b, op);
        LinkGives(a, b, op);
      } else if Apart(op) {
        ApartLeaves(a, b, op);
      } else {
        ChallengeOpSessions(a, b, op);
      }
      SameGives(a, b, op, i);
    }
  }

  // --------------------------------------------------------- sessions over runs

  /** The operation sees the session: it makes it, or lets a request in by it. */
  predicate Sees(op: Op, i: string) {
    Makes(op, i) || (op.Looks? && op.sid == i)
  }

  /** The operation takes a proof, given at this time, that the session is its owner's. */
  predicate Proves(op: Op, i: string, at: int) {
    (Makes(op, i) && ProofTime(op) == at) || (op.SetsPassword? && op.c.sid == i && op.now == at)
  }

  /** The times of a session as the record accounts for them: made at `m`, seen at `k`
      and proved at `j`. */
  ghost predicate Timed(ops: seq<Op>, n: nat, i: string, s: Session, m: nat, k: nat, j: nat)
    requires n <= |ops|
  {
    && m < n && Makes(ops[m], i) && s.createdAt == ops[m].now && s.expires == ops[m].now + 30 * 86400
    && m <= k < n && Sees(ops[k], i) && s.lastSeen == ops[k].now
    && m <= j < n && Proves(ops[j], i, s.authAt)
  }

  lemma TimedStep(a: Db, b: Db, ops: seq<Op>, n: nat, i: string, m: nat, k: nat, j: nat)
    returns (l: nat, p: nat)
    requires n < |ops| && i in b.sessions && SessionFrom(a, b, ops[n], i) && !Makes(ops[n], i)
    requires i in a.sessions && Timed(ops, n, i, a.sessions[i], m, k, j)
    ensures Timed(ops, n + 1, i, b.sessions[i], m, l, p)
  {
    l := if ops[n].Looks? && ops[n].sid == i && ops[n].now - a.sessions[i].lastSeen > 60 then n else k;
    p := if ops[n].SetsPassword? && ops[n].c.sid == i then n else j;
  }

  lemma JustMade(a: Db, b: Db, ops: seq<Op>, n: nat, i: string)
    requires n < |ops| && i in b.sessions && SessionFrom(a, b, ops[n], i) && Makes(ops[n], i)
    ensures Timed(ops, n + 1, i, b.sessions[i], n, n, n)
  {
  }

  lemma SessionBefore(a: Db, b: Db, op: Op, i: string)
    requires i in b.sessions && SessionFrom(a, b, op, i) && !Makes(op, i)
    ensures i in a.sessions
  {
  }

  lemma {:induction false} EverySessionIsTimed(states: seq<Db>, ops: seq<Op>, n: nat, i: string)
    returns (m: nat, k: nat, j: nat)
    requires IsRun(states, ops) && n <= |ops| && i in states[n].sessions
    ensures Timed(ops, n, i, states[n].sessions[i], m, k, j)
  {
    hide Step, IsStart, Inv, Timed, SessionFrom, Makes;
    if n == 0 {
      StartsEmpty(states, ops);
    } else {
      RunStep(states, ops, n - 1);
      RunIsSound(states, ops, n - 1);
      var a, b, op := states[n - 1], states[n], ops[n - 1];
      StepGivesSession(a, b, op, i);
      if Makes(op, i) {
        JustMade(a, b, ops, n - 1, i);
        m, k, j := n - 1, n - 1, n - 1;
      } else {
        SessionBefore(a, b, op, i);
        m, k, j := EverySessionIsTimed(states, ops, n - 1, i);
        k, j := TimedStep(a, b, ops, n - 1, i, m, k, j);
      }
    }
  }

  /** At any state of a run, whom a token lets in. The session has the token, has not
      ended, was seen within seven days and is not past its end; its profile is enabled;
      and its account, if it has one, is held at the version the session is good for.
      Nothing else is asked, and nothing less is enough. */
  lemma OpensExactly(states: seq<Db>, ops: seq<Op>, n: nat, i: string, token: string, now: int)
    requires IsRun(states, ops) && n <= |ops|
    ensures OpensBy(states[n], i, token, now) <==>
              && i in states[n].sessions
              && var s := states[n].sessions[i];
              && s.token == token && !s.revoked && 0 <= now - s.lastSeen <= 7 * 86400 && now <= s.expires
              && s.pid in states[n].profiles && !states[n].profiles[s.pid].disabled
              && (s.aid != 0 ==>
                    && Key(s.pid, s.aid) in states[n].bindings
                    && states[n].bindings[Key(s.pid, s.aid)].revokedAt.None?
                    && states[n].bindings[Key(s.pid, s.aid)].version == s.lv)
  {
    RunIsSound(states, ops, n);
    hide IsRun, Inv, Usable;
    OpeningIsLasting(states[n], token, now);
  }

  /** A session left idle for seven days opens nothing, and neither does one that is
      past its end or one of a disabled profile, whatever the token. */
  lemma IdleOpensNothing(states: seq<Db>, ops: seq<Op>, n: nat, i: string, token: string, now: int)
    requires IsRun(states, ops) && n <= |ops| && i in states[n].sessions
    requires var s := states[n].sessions[i];
             || now - s.lastSeen > 7 * 86400 || now > s.expires
             || s.pid !in states[n].profiles || states[n].profiles[s.pid].disabled
    ensures !OpensBy(states[n], i, token, now)
  {
    hide IsRun, OpensBy;
    OpensExactly(states, ops, n, i, token, now);
  }

  /** A request let in was preceded, within thirty days, by the sign-in that made its
      session and, within seven, by a request that it let in or by that sign-in. */
  lemma LetInWasSeen(states: seq<Db>, ops: seq<Op>, n: nat, i: string, now: int)
    requires IsRun(states, ops) && n < |ops| && ops[n] == Looks(i, now)
    ensures exists m, k :: 0 <= m <= k < n && Makes(ops[m], i) && now - ops[m].now <= 30 * 86400
                           && Sees(ops[k], i) && 0 <= now - ops[k].now <= 7 * 86400
  {
    RunStep(states, ops, n);
    LookFinds(states[n], states[n + 1], i, now);
    hide Step, IsStart, IsRun, Makes, Sees, OpensBy;
    OpensExactly(states, ops, n, i, states[n].sessions[i].token, now);
    var m, k, j := EverySessionIsTimed(states, ops, n, i);
    assert Makes(ops[m], i) && Sees(ops[k], i);
  }

  lemma LookFinds(a: Db, b: Db, i: string, now: int)
    requires Step(a, b, Looks(i, now))
    ensures i in a.sessions && OpensBy(a, i, a.sessions[i].token, now)
  {
    hide Usable;
  }

  /** The operations that ask for a recent proof of identity, by whom and when. */
  predicate NeedsProof(op: Op, c: Current, now: int) {
    match op
    case SetsPassword(d, _, _, _, t) => d == c && t == now
    case Renames(d, _, t) => d == c && t == now
    case DropsWay(d, _, t) => d == c && t == now
    case LinksDiscord(d, _, t) => d == c && t == now
    case Unlinks(d, _, _, t) => d == c && t == now
    case Registers(d, _, _, t) => d == c && t == now
    case LinksGame(d, _, _, t) => d == c && t == now
    case _ => false
  }

  lemma ProofIsRecent(a: Db, b: Db, op: Op, c: Current, now: int)
    requires Step(a, b, op) && NeedsProof(op, c, now)
    ensures Recent(a, c.pid, c, now)
  {
    hide InstallStep, LookStep, EnterStep, EndStep, PoseStep, JudgeStep, SpendStep, PasswordFoundStep;
    hide PasskeyFoundStep, EditStep, TransferRelink.ItemStep, Recent, SignedIn, MethodCount, WayGone, LetGoAll;
    hide NameFree, PasswordSet, Named, Registered, ActiveKeys, Joined, TicketReady, MayTake, LinkKnown;
  }

  /** Whoever changes the name, the password, a way in or an account does so by a
      session of the profile, under its own token, whose owner was proved at most ten
      minutes before: by a sign-in or a change of password on record. */
  lemma ChangesFollowProof(states: seq<Db>, ops: seq<Op>, n: nat, c: Current, now: int)
    requires IsRun(states, ops) && n < |ops| && NeedsProof(ops[n], c, now)
    ensures c.sid in states[n].sessions
    ensures var s := states[n].sessions[c.sid];
            && s.token == c.token && s.pid == c.pid && !s.revoked && now <= s.expires
            && c.pid in states[n].profiles && !states[n].profiles[c.pid].disabled
    ensures exists j, at :: 0 <= j < n && Proves(ops[j], c.sid, at) && 0 <= now - at <= 600
  {
    RunStep(states, ops, n);
    ProofIsRecent(states[n], states[n + 1], ops[n], c, now);
    RunIsSound(states, ops, n);
    RecentIsProved(states[n], c, now);
    hide Step, IsStart, IsRun, Inv, Recent, Proves, NeedsProof;
    var m, k, j := EverySessionIsTimed(states, ops, n, c.sid);
    assert Proves(ops[j], c.sid, states[n].sessions[c.sid].authAt);
  }

  /** And it was opened by a way in that its profile still has. */
  lemma OpensWithItsWay(states: seq<Db>, ops: seq<Op>, n: nat, i: string, token: string, now: int)
    requires IsRun(states, ops) && n <= |ops| && OpensBy(states[n], i, token, now)
    ensures i in states[n].sessions
    ensures var db, s := states[n], states[n].sessions[i];
            match s.credential
            case PasswordVersion(v) => s.pid in db.passwords && db.passwords[s.pid].version == v
                                       && !db.passwords[s.pid].revoked
            case PasskeyId(k) => k in db.passkeys && db.passkeys[k].pid == s.pid && !db.passkeys[k].revoked
            case DiscordSubject(d) => d in db.providers && db.providers[d].pid == s.pid && !db.providers[d].revoked
  {
    RunIsSound(states, ops, n);
    OpensExactly(states, ops, n, i, token, now);
    SessionFacts(states[n]);
    hide IsRun, Inv, OpensBy;
    assert CredentialActive(states[n], states[n].sessions[i].pid, states[n].sessions[i].credential);
  }

  // ------------------------------------------------------------ states in full

  /** What holds of links, bindings and owners at every state of a run: an account has
      one holder at most, who is its owner on record; and every link is some profile's
      binding, with the same stamps, under the identity of that profile. */
  lemma HoldersInFull(states: seq<Db>, ops: seq<Op>, n: nat)
    requires IsRun(states, ops) && n <= |ops|
    ensures var db := states[n];
            && (forall j, k :: j in db.bindings && k in db.bindings && j.aid == k.aid && j != k ==>
                  db.bindings[j].revokedAt.Some? || db.bindings[k].revokedAt.Some?)
            && (forall k :: k in db.bindings && db.bindings[k].revokedAt.None? && db.installed ==>
                  k.aid in db.owners && db.owners[k.aid] == Some(k.pid))
            && (forall l :: l in db.links ==>
                  exists p :: p in db.profiles && db.profiles[p].legacy == Some(db.links[l].did)
                              && IsMirror(db, l, Key(p, db.links[l].aid)))
  {
    RunIsSound(states, ops, n);
    hide IsRun, Inv, IsMirror;
    OneHolder(states[n]);
    LinksAreMirrored(states[n]);
  }

  lemma OneHolder(db: Db)
    requires Inv(db)
    ensures forall j, k :: j in db.bindings && k in db.bindings && j.aid == k.aid && j != k ==>
              db.bindings[j].revokedAt.Some? || db.bindings[k].revokedAt.Some?
    ensures forall k :: k in db.bindings && db.bindings[k].revokedAt.None? && db.installed ==>
              k.aid in db.owners && db.owners[k.aid] == Some(k.pid)
  {
    assert UniqueActive(db.bindings) && (db.installed ==> OwnersHold(db.bindings, db.owners));
    hide Inv;
  }

  lemma LinksAreMirrored(db: Db)
    requires Inv(db)
    ensures forall l :: l in db.links ==>
              exists p :: p in db.profiles && db.profiles[p].legacy == Some(db.links[l].did)
                          && IsMirror(db, l, Key(p, db.links[l].aid))
  {
    assert Mirror(db.links, db.profiles, db.bindings);
    hide Inv;
    forall l | l in db.links
      ensures exists p :: p in db.profiles && db.profiles[p].legacy == Some(db.links[l].did)
                          && IsMirror(db, l, Key(p, db.links[l].aid))
    {
      var p :| MirroredBy(db.links, db.bindings, l, p);
      assert Mirrors(db.links, db.profiles, Key(p, db.links[l].aid), db.bindings[Key(p, db.links[l].aid)]);
      assert IsMirror(db, l, Key(p, db.links[l].aid));
    }
  }

  /** The binding says what the link says. */
  predicate IsMirror(db: Db, l: int, k: Key)
    requires l in db.links
  {
    && k in db.bindings && db.bindings[k].legacy == Some(l) && db.bindings[k].linkedAt == db.links[l].linkedAt
    && db.bindings[k].revokedAt == db.links[l].revokedAt
  }

  /** What holds of the ways in and of sessions at every state of a run: eight passkeys
      and one Discord identity a profile at most, no name and no token twice, and no
      session ahead of its binding. */
  lemma WaysInFull(states: seq<Db>, ops: seq<Op>, n: nat)
    requires IsRun(states, ops) && n <= |ops|
    ensures var db := states[n];
            && (forall p :: |set k | k in db.passkeys && db.passkeys[k] == Passkey(p, false)| <= 8)
            && (forall c, d | c in db.providers && d in db.providers && c != d && !db.providers[c].revoked
                              && !db.providers[d].revoked :: db.providers[c].pid != db.providers[d].pid)
            && (forall p, q :: p in db.users && q in db.users && p != q && db.users[p].Some? ==>
                  db.users[p] != db.users[q])
            && (forall i, j :: i in db.sessions && j in db.sessions && i != j ==>
                  db.sessions[i].token != db.sessions[j].token)
            && (forall i :: i in db.sessions && db.sessions[i].aid != 0 ==>
                  && Key(db.sessions[i].pid, db.sessions[i].aid) in db.bindings
                  && db.sessions[i].lv <= db.bindings[Key(db.sessions[i].pid, db.sessions[i].aid)].version)
  {
    RunIsSound(states, ops, n);
    var db := states[n];
    WayFacts(db);
    SessionFacts(db);
    assert UniqueNames(db.users);
    forall p ensures |set k | k in db.passkeys && db.passkeys[k] == Passkey(p, false)| <= 8 {
      assert ActiveKeys(db.passkeys, p) == set k | k in db.passkeys && db.passkeys[k] == Passkey(p, false);
    }
    hide IsRun, Inv, CredentialsHold, References, PasskeysBounded;
  }

  /** A profile with a way in has one ever after. */
  lemma AlwaysAWayIn(states: seq<Db>, ops: seq<Op>, m: nat, n: nat, pid: string)
    requires IsRun(states, ops) && m <= n <= |ops| && exists way :: Offers(states[m], pid, way)
    ensures exists way :: Offers(states[n], pid, way)
  {
    hide Step, IsStart, Offers;
    MethodIsOffered(states[m], pid);
    MethodIsOffered(states[n], pid);
    hide HasMethod;
    NeverLockedOut(states, ops, m, n, pid);
  }

  lemma MethodIsOffered(db: Db, pid: string)
    ensures HasMethod(db, pid) <==> exists way :: Offers(db, pid, way)
  {
    if HasMethod(db, pid) {
      if ActiveKeys(db.passkeys, pid) != {} {
        var k :| k in ActiveKeys(db.passkeys, pid);
        assert Offers(db, pid, PasskeyWay(k));
      } else {
        assert Offers(db, pid, PasswordWay) || Offers(db, pid, DiscordWay);
      }
    }
    if way :| Offers(db, pid, way) {
      if way.PasskeyWay? {
        assert way.id in ActiveKeys(db.passkeys, pid);
      } else if way.DiscordWay? {
        var d :| d in db.providers && db.providers[d].pid == pid && !db.providers[d].revoked;
        assert db.providers[d] == Provider(pid, false);
      }
    }
  }

  /** A token that no open session has, once it was drawn, never has one again. */
  lemma TokensStayShut(states: seq<Db>, ops: seq<Op>, m: nat, n: nat, token: string)
    requires IsRun(states, ops) && m <= n <= |ops| && token in states[m].drawn
    requires forall i :: i in states[m].sessions && states[m].sessions[i].token == token ==>
               states[m].sessions[i].revoked
    ensures forall i :: i in states[n].sessions && states[n].sessions[i].token == token ==>
              states[n].sessions[i].revoked
    ensures forall i, now :: !OpensBy(states[n], i, token, now)
  {
    hide IsRun;
    DeadTokensStayDead(states, ops, m, n, token);
  }

  /** Once a binding has been given up or taken back, no session opens on it any more that
      was made for the version before. */
  lemma ChangeShutsOut(states: seq<Db>, ops: seq<Op>, m: nat, n: nat, i: string, token: string, now: int)
    requires IsRun(states, ops) && m <= n <= |ops| && i in states[m].sessions && i in states[n].sessions
    requires states[m].sessions[i].aid != 0 && states[n].sessions[i].aid == states[m].sessions[i].aid
    requires states[n].sessions[i].lv == states[m].sessions[i].lv
    requires var k := Key(states[m].sessions[i].pid, states[m].sessions[i].aid);
             k in states[m].bindings && k in states[n].bindings ==>
               || states[n].bindings[k].revokedAt != states[m].bindings[k].revokedAt
               || states[n].bindings[k].linkedAt != states[m].bindings[k].linkedAt
    ensures !OpensBy(states[n], i, token, now)
  {
    RunIsSound(states, ops, m);
    OpensExactly(states, ops, n, i, token, now);
    BindingsRise(states, ops, m, n);
    SessionFacts(states[m]);
    hide IsRun, Inv, OpensBy;
    assert SessionBound(states[m].bindings, states[m].sessions[i]);
  }

  lemma BindingsRise(states: seq<Db>, ops: seq<Op>, m: nat, n: nat)
    requires IsRun(states, ops) && m <= n <= |ops|
    ensures forall k :: k in states[m].bindings ==>
              && k in states[n].bindings && states[m].bindings[k].version <= states[n].bindings[k].version
              && (states[n].bindings[k].revokedAt != states[m].bindings[k].revokedAt
                  || states[n].bindings[k].linkedAt != states[m].bindings[k].linkedAt ==>
                    states[m].bindings[k].version < states[n].bindings[k].version)
    ensures forall i :: i in states[m].sessions ==>
              i in states[n].sessions && states[n].sessions[i].pid == states[m].sessions[i].pid
  {
    RunIsHistory(states, ops);
    hide IsRun, History;
    HistoryEvolves(states, m, n);
    assert VersionsRise(states[m].bindings, states[n].bindings) && SessionsKept(states[m], states[n]);
    hide Evolves;
  }
}
