/** The link tables and the profiles over them: the one-time backfill, and the
    begin/finish bracket within which a caller edits the older link table as it
    likes. */
module PortalIdentity {
  import opened Wrappers
  import opened PortalTables

  const MAX_LEGACY_LINKS := 100000

  datatype MigrationError =
    | RequiresOwnTransaction | LinkBoundExceeded | LinkInvalid | LinkAmbiguous | ActiveOwnerConflict
    | ProviderConflict | ProfileDisabled | ProviderMissing | BindingDiffers | BindingSourceMissing
    | InvalidTransaction | TransactionLost | InvalidIdentity | DeletionRefused | OutsideIdentity | GrantNotAuthorized
    | ProfileMissing | ProviderUnavailable | OwnershipRecoveryRequired | NewLinkBindingConflict | SqlRefused

  predicate IsDigit(c: char) {
    '0' <= c <= '9'
  }

  /** One to twenty digits, the first not zero. */
  predicate ValidDiscordId(did: string) {
    1 <= |did| <= 20 && did[0] != '0' && forall i :: 0 <= i < |did| ==> IsDigit(did[i])
  }

  // ------------------------------------------------------------- source links

  predicate RowValid(id: int, l: Link) {
    id > 0 && ValidDiscordId(l.did) && l.aid > 0
  }

  ghost predicate PairsUniqueIn(links: Links, ids: set<int>) {
    forall i, j | i in ids && j in ids && i in links && j in links ::
      links[i].did == links[j].did && links[i].aid == links[j].aid ==> i == j
  }

  ghost predicate ActiveOnceIn(links: Links, ids: set<int>) {
    forall i, j | i in ids && j in ids && i in links && j in links ::
      links[i].aid == links[j].aid && links[i].revokedAt.None? && links[j].revokedAt.None? ==> i == j
  }

  ghost predicate RowsValidIn(links: Links, ids: set<int>) {
    forall i :: i in ids && i in links ==> RowValid(i, links[i])
  }

  /** No identity holds an account twice, and no account has two active links. */
  ghost predicate LinksValid(links: Links) {
    |links| <= MAX_LEGACY_LINKS && ValidIn(links, links.Keys)
  }

  function PairsOf(links: Links, ids: set<int>): set<(string, int)>
    requires ids <= links.Keys
  {
    set i | i in ids :: (links[i].did, links[i].aid)
  }

  function ActiveOf(links: Links, ids: set<int>): set<int>
    requires ids <= links.Keys
  {
    set i | i in ids && links[i].revokedAt.None? :: links[i].aid
  }

  lemma OneMorePair(links: Links, ids: set<int>, i: int)
    requires ids <= links.Keys && i in links && i !in ids && PairsUniqueIn(links, ids)
    ensures PairsUniqueIn(links, ids + {i}) <==> (links[i].did, links[i].aid) !in PairsOf(links, ids)
  {
    if (links[i].did, links[i].aid) in PairsOf(links, ids) {
      var j :| j in ids && (links[j].did, links[j].aid) == (links[i].did, links[i].aid);
      assert j in ids + {i} && i in ids + {i} && i != j;
    }
  }

  lemma OneMoreActive(links: Links, ids: set<int>, i: int)
    requires ids <= links.Keys && i in links && i !in ids && ActiveOnceIn(links, ids)
    ensures ActiveOnceIn(links, ids + {i}) <==> !(links[i].revokedAt.None? && links[i].aid in ActiveOf(links, ids))
  {
    if links[i].revokedAt.None? && links[i].aid in ActiveOf(links, ids) {
      var j :| j in ids && links[j].revokedAt.None? && links[j].aid == links[i].aid;
      assert j in ids + {i} && i in ids + {i} && i != j;
    }
  }

  ghost predicate ValidIn(links: Links, ids: set<int>) {
    RowsValidIn(links, ids) && PairsUniqueIn(links, ids) && ActiveOnceIn(links, ids)
  }

  /** What the scan asks of the next row. */
  predicate RowFits(links: Links, i: int, identities: set<(string, int)>, active: set<int>)
    requires i in links
  {
    && RowValid(i, links[i]) && (links[i].did, links[i].aid) !in identities
    && !(links[i].revokedAt.None? && links[i].aid in active)
  }

  lemma ScanStep(links: Links, seen: set<int>, i: int)
    requires seen <= links.Keys && i in links && i !in seen && ValidIn(links, seen)
    ensures ValidIn(links, seen + {i}) <==> RowFits(links, i, PairsOf(links, seen), ActiveOf(links, seen))
    ensures PairsOf(links, seen + {i}) == PairsOf(links, seen) + {(links[i].did, links[i].aid)}
    ensures ActiveOf(links, seen + {i}) ==
            ActiveOf(links, seen) + if links[i].revokedAt.None? then {links[i].aid} else {}
  {
    OneMorePair(links, seen, i);
    OneMoreActive(links, seen, i);
    hide PairsUniqueIn, ActiveOnceIn, RowValid;
  }

  lemma ScanPart(links: Links, ids: set<int>)
    requires ids <= links.Keys && ValidIn(links, links.Keys)
    ensures ValidIn(links, ids)
  {
  }

  lemma ScanNothing(links: Links)
    ensures ValidIn(links, {}) && PairsOf(links, {}) == {} && ActiveOf(links, {}) == {}
  {
  }

  /** A hundred thousand rows at most, each with a positive number, a positive account
      and a Discord identity of one to twenty digits that does not start with a zero; no
      identity with two rows for an account, and no account with two active rows. */
  ghost predicate SoundLinks(links: Links) {
    && |links| <= 100000
    && (forall i :: i in links ==>
          && i > 0 && links[i].aid > 0 && 1 <= |links[i].did| <= 20 && links[i].did[0] != '0'
          && forall n :: 0 <= n < |links[i].did| ==> '0' <= links[i].did[n] <= '9')
    && (forall i, j :: i in links && j in links && i != j && links[i].aid == links[j].aid ==>
          && links[i].did != links[j].did
          && (links[i].revokedAt.Some? || links[j].revokedAt.Some?))
  }

  lemma ValidIsSound(links: Links)
    ensures LinksValid(links) <==> SoundLinks(links)
  {
    forall i | i in links
      ensures RowValid(i, links[i]) <==>
                && i > 0 && links[i].aid > 0 && 1 <= |links[i].did| <= 20 && links[i].did[0] != '0'
                && forall n :: 0 <= n < |links[i].did| ==> '0' <= links[i].did[n] <= '9'
    {
    }
    hide RowValid;
    if SoundLinks(links) {
      assert RowsValidIn(links, links.Keys) && PairsUniqueIn(links, links.Keys) && ActiveOnceIn(links, links.Keys);
    }
    if LinksValid(links) {
      assert RowsValidIn(links, links.Keys) && PairsUniqueIn(links, links.Keys) && ActiveOnceIn(links, links.Keys);
    }
  }

  /** Reads the older table and refuses it unless it is valid. */
  method SourceLinks(links: Links) returns (r: Result<(), MigrationError>)
    ensures r.Ok? <==> LinksValid(links)
    ensures r.Ok? <==> SoundLinks(links)
  {
    ValidIsSound(links);
    hide ValidIn, PairsOf, ActiveOf, SoundLinks;
    if |links| > MAX_LEGACY_LINKS {
      return Err(LinkBoundExceeded);
    }
    var active: set<int> := {};
    var identities: set<(string, int)> := {};
    var todo := links.Keys;
    ghost var seen: set<int> := {};
    ScanNothing(links);
    while todo != {}
      invariant seen + todo == links.Keys && seen !! todo && ValidIn(links, seen)
      invariant identities == PairsOf(links, seen) && active == ActiveOf(links, seen)
    {
      EmptyOrMember(todo);
      var i :| i in todo;
      var l := links[i];
      ScanStep(links, seen, i);
      if !RowFits(links, i, identities, active) {
        if ValidIn(links, links.Keys) {
          ScanPart(links, seen + {i});
        }
        return Err(if !RowValid(i, l) then LinkInvalid else if (l.did, l.aid) in identities then LinkAmbiguous
                   else ActiveOwnerConflict);
      }
      identities := identities + {(l.did, l.aid)};
      active := active + if l.revokedAt.None? then {l.aid} else {};
      todo, seen := todo - {i}, seen + {i};
    }
    assert seen == links.Keys;
    return Ok(());
  }

  // ----------------------------------------------------------------- profiles

  predicate IsProfileOf(profiles: Profiles, pid: string, did: string) {
    pid in profiles && profiles[pid].legacy == Some(did)
  }

  /** The profile recorded for a Discord identity. */
  method FindProfile(profiles: Profiles, did: string) returns (r: Option<string>)
    ensures r.Some? ==> IsProfileOf(profiles, r.value, did)
    ensures r.None? ==> forall p :: p in profiles ==> !IsProfileOf(profiles, p, did)
  {
    var todo := profiles.Keys;
    while todo != {}
      invariant todo <= profiles.Keys
      invariant forall p :: p in profiles && p !in todo ==> !IsProfileOf(profiles, p, did)
    {
      var p :| p in todo;
      if profiles[p].legacy == Some(did) {
        return Some(p);
      }
      todo := todo - {p};
    }
    return None;
  }

  // ------------------------------------------------------- begin and finish

  /** What begin remembers for finish. */
  datatype Change = Change(did: string, allowGrant: bool, before: Links)

  /** Opens the transaction in which a caller may rewrite the links of one Discord
      identity. */
  method BeginLegacyLinks(conn: Connection, did: string, allowGrant: bool) returns (r: Result<Change, MigrationError>)
    modifies conn
    ensures conn.db == old(conn.db)
    ensures r.Ok? <==> old(conn.begun).None? && ValidDiscordId(did) && LinksValid(conn.db.links)
    ensures r.Ok? ==> conn.begun == Some(conn.db) && r.value == Change(did, allowGrant, conn.db.links)
    ensures r.Err? ==> conn.begun == old(conn.begun)
  {
    var ok := conn.Begin();
    if !ok {
      return Err(InvalidTransaction);
    }
    if !ValidDiscordId(did) {
      conn.Rollback();
      return Err(InvalidIdentity);
    }
    var checked := SourceLinks(conn.db.links);
    if checked.Err? {
      conn.Rollback();
      return Err(checked.error);
    }
    return Ok(Change(did, allowGrant, conn.db.links));
  }

  /** Rows the caller added or altered. */
  function Changed(before: Links, after: Links): set<int> {
    set l | l in after && !(l in before && before[l] == after[l])
  }

  /** Every altered row belongs to the identity the change was opened for, and no row
      changes hands. */
  predicate WithinIdentity(before: Links, after: Links, did: string) {
    forall l :: l in Changed(before, after) ==>
      after[l].did == did && (l in before ==> before[l].did == did && before[l].aid == after[l].aid)
  }

  predicate Granting(before: Links, after: Links) {
    exists l :: l in Changed(before, after) && after[l].revokedAt.None?
  }

  /** The profile a change falls to: the one recorded for the identity, or a new one
      when the identity has never held a link. */
  ghost predicate ProfileReady(db: Db, after: Links, did: string) {
    if exists p :: p in db.profiles && IsProfileOf(db.profiles, p, did) then
      Granting(db.links, after) ==>
        forall p :: p in db.profiles && IsProfileOf(db.profiles, p, did) ==>
          !db.profiles[p].disabled && did in db.providers && db.providers[did] == Provider(p, false)
    else
      Granting(db.links, after) && did !in db.providers && forall l :: l in db.links ==> db.links[l].did != did
  }

  /** A granted account is not recorded as someone else's, nor as nobody's. */
  predicate GrantAllowed(db: Db, pid: string, aid: int) {
    db.installed ==> aid !in db.owners || db.owners[aid] == Some(pid)
  }

  predicate GrantsAllowed(db: Db, after: Links, pid: string) {
    forall l :: l in Changed(db.links, after) && after[l].revokedAt.None? ==> GrantAllowed(db, pid, after[l].aid)
  }

  /** A link added to the older table takes no place that a profile already has. */
  predicate PlacesFree(db: Db, after: Links, pid: string) {
    forall l :: l in Changed(db.links, after) && l !in db.links ==> Key(pid, after[l].aid) !in db.bindings
  }

  /** Exactly the edits that finish accepts. */
  ghost predicate Acceptable(db: Db, after: Links, change: Change, pid: string) {
    && LinksValid(after) && db.links.Keys <= after.Keys
    && (Changed(db.links, after) != {} ==>
          && WithinIdentity(db.links, after, change.did) && (Granting(db.links, after) ==> change.allowGrant)
          && ProfileReady(db, after, change.did) && GrantsAllowed(db, after, pid) && PlacesFree(db, after, pid))
  }

  /** The profile the identity already has, or the identifier drawn for a new one. */
  predicate IsChosen(profiles: Profiles, did: string, newPid: string, pid: string) {
    if pid == newPid then forall p :: p in profiles ==> !IsProfileOf(profiles, p, did)
    else IsProfileOf(profiles, pid, did)
  }

  function NewBinding(was: Bindings, before: Links, after: Links, pid: string, l: int): Binding
    requires l in after && (l in before ==> Key(pid, after[l].aid) in was)
  {
    Binding(Some(l), after[l].linkedAt, after[l].revokedAt,
            if l in before then was[Key(pid, after[l].aid)].version + 1 else 2)
  }

  /** The bindings once the rows in `done` have been copied over, each with a version
      no session has. */
  ghost predicate Rebound(was: Bindings, bindings: Bindings, before: Links, after: Links, pid: string, done: set<int>) {
    && (forall l :: l in done ==>
          && l in after && (l in before ==> Key(pid, after[l].aid) in was) && Key(pid, after[l].aid) in bindings
          && bindings[Key(pid, after[l].aid)] == NewBinding(was, before, after, pid, l))
    && (forall k :: k in was ==> k in bindings)
    && (forall k :: k in bindings && !Rewritten(after, pid, done, k) ==> k in was && bindings[k] == was[k])
  }

  /** The binding belongs to one of the rows. */
  ghost predicate Rewritten(after: Links, pid: string, done: set<int>, k: Key) {
    exists l :: l in done && l in after && k == Key(pid, after[l].aid)
  }

  ghost predicate Claimed(was: Owners, owners: Owners, after: Links, pid: string, done: set<int>) {
    && (forall a :: a in was ==> a in owners && owners[a] == was[a])
    && (forall l :: l in done && l in after && after[l].revokedAt.None? ==>
          after[l].aid in owners && owners[after[l].aid] == Some(pid))
    && (forall a :: a in owners && a !in was ==>
          exists l :: l in done && l in after && after[l].revokedAt.None? && after[l].aid == a)
  }

  /** The whole effect of an accepted change. */
  ghost predicate Finished(a: Db, b: Db, did: string, pid: string) {
    var changed := Changed(a.links, b.links);
    if changed == {} then b == a.(links := b.links)
    else
      && b == a.(links := b.links, profiles := b.profiles, providers := b.providers, bindings := b.bindings,
                 owners := b.owners)
      && (if IsProfileOf(a.profiles, pid, did) then b.profiles == a.profiles && b.providers == a.providers
          else
            && b.profiles == a.profiles[pid := Profile(Some(did), false)]
            && b.providers == a.providers[did := Provider(pid, false)])
      && Rebound(a.bindings, b.bindings, a.links, b.links, pid, changed)
      && (if a.installed then Claimed(a.owners, b.owners, b.links, pid, changed) else b.owners == a.owners)
  }

  // ------------------------------------------------ proofs about an accepted edit

  /** The binding of a known link is found under the identity's profile. */
  lemma KnownLinkIsBound(db: Db, pid: string, l: int)
    requires Inv(db) && l in db.links && IsProfileOf(db.profiles, pid, db.links[l].did)
    ensures Key(pid, db.links[l].aid) in db.bindings && db.bindings[Key(pid, db.links[l].aid)].legacy == Some(l)
  {
    assert Mirror(db.links, db.profiles, db.bindings) && UniqueLegacy(db.profiles);
    hide Inv;
    var p :| MirroredBy(db.links, db.bindings, l, p);
    assert Mirrors(db.links, db.profiles, Key(p, db.links[l].aid), db.bindings[Key(p, db.links[l].aid)]);
  }

  lemma KnownLinkHasProfile(db: Db, l: int) returns (pid: string)
    requires Inv(db) && l in db.links
    ensures IsProfileOf(db.profiles, pid, db.links[l].did)
  {
    assert Mirror(db.links, db.profiles, db.bindings);
    hide Inv;
    pid :| MirroredBy(db.links, db.bindings, l, pid);
    assert Mirrors(db.links, db.profiles, Key(pid, db.links[l].aid), db.bindings[Key(pid, db.links[l].aid)]);
  }

  lemma SameProfile(profiles: Profiles, p: string, q: string, did: string)
    requires UniqueLegacy(profiles) && IsProfileOf(profiles, p, did) && IsProfileOf(profiles, q, did)
    ensures p == q
  {
  }

  /** A change to one identity's links, carried over to its bindings: what the proofs
      about it start from. */
  ghost predicate CarriedOver(
    a: Links, ps: Profiles, was: Bindings, b: Links, qs: Profiles, bindings: Bindings, did: string, pid: string)
  {
    && Mirror(a, ps, was) && UniqueLegacy(qs) && IsProfileOf(qs, pid, did)
    && (forall p :: p in ps ==> p in qs && qs[p] == ps[p])
    && a.Keys <= b.Keys && PairsUniqueIn(b, b.Keys) && WithinIdentity(a, b, did)
    && Rebound(was, bindings, a, b, pid, Changed(a, b))
  }

  /** Where a binding mirrors a link that was edited, it is the one rewritten. */
  lemma EditedIsRewritten(
      a: Links, ps: Profiles, was: Bindings, b: Links, qs: Profiles, bindings: Bindings, did: string, pid: string,
      k: Key)
    requires CarriedOver(a, ps, was, b, qs, bindings, did, pid) && k in was && was[k].legacy.Some?
    requires was[k].legacy.value in Changed(a, b)
    ensures k == Key(pid, b[was[k].legacy.value].aid)
  {
    hide Rebound, PairsUniqueIn;
    var l := was[k].legacy.value;
    assert Mirrors(a, ps, k, was[k]) && a[l].did == did;
    SameProfile(qs, pid, k.pid, did);
  }

  lemma UntouchedMirrors(
      a: Links, ps: Profiles, was: Bindings, b: Links, qs: Profiles, bindings: Bindings, did: string, pid: string,
      k: Key)
    requires CarriedOver(a, ps, was, b, qs, bindings, did, pid) && k in was
    requires !Rewritten(b, pid, Changed(a, b), k)
    ensures Mirrors(b, qs, k, was[k])
  {
    hide Rebound, PairsUniqueIn, UniqueLegacy;
    assert Mirrors(a, ps, k, was[k]);
    if was[k].legacy.Some? && was[k].legacy.value in Changed(a, b) {
      var l := was[k].legacy.value;
      EditedIsRewritten(a, ps, was, b, qs, bindings, did, pid, k);
    }
  }

  lemma CarriedMirrors(
      a: Links, ps: Profiles, was: Bindings, b: Links, qs: Profiles, bindings: Bindings, did: string, pid: string,
      k: Key)
    requires CarriedOver(a, ps, was, b, qs, bindings, did, pid) && k in bindings
    ensures Mirrors(b, qs, k, bindings[k])
  {
    hide Mirror, PairsUniqueIn, UniqueLegacy;
    if Rewritten(b, pid, Changed(a, b), k) {
      var l :| l in Changed(a, b) && k == Key(pid, b[l].aid);
      assert bindings[k] == NewBinding(was, a, b, pid, l);
    } else {
      UntouchedMirrors(a, ps, was, b, qs, bindings, did, pid, k);
    }
  }

  lemma CarriedIsMirrored(
      a: Links, ps: Profiles, was: Bindings, b: Links, qs: Profiles, bindings: Bindings, did: string, pid: string,
      l: int)
    requires CarriedOver(a, ps, was, b, qs, bindings, did, pid) && l in b
    ensures exists p :: MirroredBy(b, bindings, l, p)
  {
    if l in Changed(a, b) {
      assert MirroredBy(b, bindings, l, pid);
    } else {
      var p :| MirroredBy(a, was, l, p);
      assert Mirrors(a, ps, Key(p, a[l].aid), was[Key(p, a[l].aid)]);
      assert !Rewritten(b, pid, Changed(a, b), Key(p, a[l].aid));
      assert MirroredBy(b, bindings, l, p);
    }
  }

  lemma CarriedMirror(
      a: Links, ps: Profiles, was: Bindings, b: Links, qs: Profiles, bindings: Bindings, did: string, pid: string)
    requires CarriedOver(a, ps, was, b, qs, bindings, did, pid)
    ensures Mirror(b, qs, bindings)
  {
    hide CarriedOver, Mirrors;
    forall k | k in bindings ensures Mirrors(b, qs, k, bindings[k]) {
      CarriedMirrors(a, ps, was, b, qs, bindings, did, pid, k);
    }
    forall l | l in b ensures exists p :: MirroredBy(b, bindings, l, p) {
      CarriedIsMirrored(a, ps, was, b, qs, bindings, did, pid, l);
    }
  }

  // ----------------------------------------------------- the rows, one at a time

  /** Rows of one identity have different accounts, so their bindings differ. */
  ghost predicate OwnPlaces(after: Links, pid: string, rows: set<int>) {
    forall l, m :: l in rows && m in rows && l in after && m in after && after[l].aid == after[m].aid ==> l == m
  }

  lemma WithinHasOwnPlaces(before: Links, after: Links, did: string, pid: string)
    requires WithinIdentity(before, after, did) && PairsUniqueIn(after, after.Keys)
    ensures OwnPlaces(after, pid, Changed(before, after))
  {
    var rows := Changed(before, after);
    forall l, m | l in rows && m in rows && after[l].aid == after[m].aid ensures l == m {
      assert after[l].did == did && after[m].did == did;
    }
  }

  predicate RowAllowed(db: Db, before: Links, after: Links, pid: string, l: int)
    requires l in after
  {
    && (after[l].revokedAt.None? ==> GrantAllowed(db, pid, after[l].aid))
    && (l !in before ==> Key(pid, after[l].aid) !in db.bindings)
  }

  lemma ReboundStep(was: Bindings, bindings: Bindings, before: Links, after: Links, pid: string, done: set<int>, l: int)
    requires Rebound(was, bindings, before, after, pid, done) && OwnPlaces(after, pid, done + {l}) && l !in done
    requires l in after && (l in before ==> Key(pid, after[l].aid) in was)
    ensures Rebound(was, bindings[Key(pid, after[l].aid) := NewBinding(was, before, after, pid, l)], before, after, pid,
                    done + {l})
    ensures Key(pid, after[l].aid) in bindings <==> Key(pid, after[l].aid) in was
    ensures l in before ==> bindings[Key(pid, after[l].aid)] == was[Key(pid, after[l].aid)]
  {
    var key, next := Key(pid, after[l].aid), NewBinding(was, before, after, pid, l);
    PlaceUntouched(after, pid, done, l);
    forall m | m in done ensures Key(pid, after[m].aid) != key {
      assert m in done + {l} && l in done + {l};
    }
    forall k | k in bindings[key := next] && !Rewritten(after, pid, done + {l}, k)
      ensures k in was && bindings[k] == was[k]
    {
      RewrittenMore(after, pid, done, l, k);
    }
  }

  lemma RewrittenMore(after: Links, pid: string, done: set<int>, l: int, k: Key)
    requires l in after
    ensures Rewritten(after, pid, done + {l}, k) <==> Rewritten(after, pid, done, k) || k == Key(pid, after[l].aid)
  {
    if Rewritten(after, pid, done, k) {
      var m :| m in done && m in after && k == Key(pid, after[m].aid);
      assert m in done + {l};
    }
    assert l in done + {l};
  }

  lemma PlaceUntouched(after: Links, pid: string, done: set<int>, l: int)
    requires OwnPlaces(after, pid, done + {l}) && l !in done && l in after
    ensures !Rewritten(after, pid, done, Key(pid, after[l].aid))
  {
    assert l in done + {l} && forall m :: m in done ==> m in done + {l};
  }

  ghost predicate OwnersAfter(db: Db, owners: Owners, after: Links, pid: string, done: set<int>) {
    if db.installed then Claimed(db.owners, owners, after, pid, done) else owners == db.owners
  }

  /** Copies a set of rows into the bindings and claims the accounts they grant. */
  method CarryRows(db: Db, after: Links, pid: string, rows: set<int>, bindings0: Bindings, owners0: Owners,
        ghost done: set<int>)
    returns (r: Result<(Bindings, Owners), MigrationError>)
    requires rows !! done && rows <= after.Keys && OwnPlaces(after, pid, done + rows)
    requires forall l :: l in rows && l in db.links ==> Key(pid, after[l].aid) in db.bindings
    requires Rebound(db.bindings, bindings0, db.links, after, pid, done) && OwnersAfter(db, owners0, after, pid, done)
    ensures r.Ok? <==> forall l :: l in rows ==> RowAllowed(db, db.links, after, pid, l)
    ensures r.Ok? ==> Rebound(db.bindings, r.value.0, db.links, after, pid, done + rows)
    ensures r.Ok? ==> OwnersAfter(db, r.value.1, after, pid, done + rows)
  {
    hide Rebound, Claimed;
    var bindings, owners := bindings0, owners0;
    var todo := rows;
    ghost var seen := done;
    while todo != {}
      invariant todo <= rows && seen == done + (rows - todo) && seen !! todo
      invariant forall l :: l in rows - todo ==> RowAllowed(db, db.links, after, pid, l)
      invariant Rebound(db.bindings, bindings, db.links, after, pid, seen) && OwnersAfter(db, owners, after, pid, seen)
    {
      EmptyOrMember(todo);
      var l :| l in todo;
      var key := Key(pid, after[l].aid);
      assert OwnPlaces(after, pid, seen + {l}) by { assert seen + {l} <= done + rows; }
      ReboundStep(db.bindings, bindings, db.links, after, pid, seen, l);
      ClaimStep(db, owners, after, pid, seen, l);
      if after[l].revokedAt.None? && db.installed {
        if key.aid in owners && owners[key.aid] != Some(pid) {
          return Err(OwnershipRecoveryRequired);
        }
        owners := owners[key.aid := Some(pid)];
      }
      if l !in db.links && key in bindings {
        return Err(NewLinkBindingConflict);
      }
      bindings := bindings[key := Binding(Some(l), after[l].linkedAt, after[l].revokedAt,
                                          if l in db.links then bindings[key].version + 1 else 2)];
      todo, seen := todo - {l}, seen + {l};
    }
    assert seen == done + rows;
    return Ok((bindings, owners));
  }

  lemma ClaimStep(db: Db, owners: Owners, after: Links, pid: string, done: set<int>, l: int)
    requires l in after && OwnersAfter(db, owners, after, pid, done)
    ensures GrantAllowed(db, pid, after[l].aid) <==>
              !db.installed || after[l].aid !in owners || owners[after[l].aid] == Some(pid)
    ensures db.installed && after[l].revokedAt.None? && GrantAllowed(db, pid, after[l].aid) ==>
              OwnersAfter(db, owners[after[l].aid := Some(pid)], after, pid, done + {l})
    ensures !db.installed || after[l].revokedAt.Some? ==> OwnersAfter(db, owners, after, pid, done + {l})
  {
    if db.installed && after[l].revokedAt.None? && GrantAllowed(db, pid, after[l].aid) {
      forall a | a in owners[after[l].aid := Some(pid)] && a !in db.owners
        ensures exists m :: m in done + {l} && m in after && after[m].revokedAt.None? && after[m].aid == a
      {
        if a == after[l].aid {
          assert l in done + {l};
        } else {
          var m :| m in done && m in after && after[m].revokedAt.None? && after[m].aid == a;
          assert m in done + {l};
        }
      }
    }
  }

  // --------------------------------------------- what an accepted change keeps

  lemma OwnersGiveUnique(bindings: Bindings, owners: Owners)
    requires OwnersHold(bindings, owners)
    ensures UniqueActive(bindings)
  {
  }

  /** Where every binding mirrors a link, one active link an account means one active
      binding an account. */
  lemma MirrorGivesUnique(links: Links, profiles: Profiles, bindings: Bindings)
    requires Mirror(links, profiles, bindings) && UniqueLegacy(profiles) && ActiveOnceIn(links, links.Keys)
    requires forall k :: k in bindings ==> bindings[k].legacy.Some?
    ensures UniqueActive(bindings)
  {
    forall j, k | j in bindings && k in bindings && j.aid == k.aid && Active(bindings[j]) && Active(bindings[k])
      ensures j == k
    {
      var l, m := bindings[j].legacy.value, bindings[k].legacy.value;
      assert Mirrors(links, profiles, j, bindings[j]) && Mirrors(links, profiles, k, bindings[k]);
      assert l == m;
    }
  }

  lemma ClaimsHold(was: Bindings, bindings: Bindings, o: Owners, owners: Owners, before: Links, after: Links,
        pid: string, rows: set<int>)
    requires OwnersHold(was, o) && Rebound(was, bindings, before, after, pid, rows)
    requires Claimed(o, owners, after, pid, rows)
    ensures OwnersHold(bindings, owners)
  {
    forall k | k in bindings && Active(bindings[k]) ensures k.aid in owners && owners[k.aid] == Some(k.pid) {
      if Rewritten(after, pid, rows, k) {
        var l :| l in rows && l in after && k == Key(pid, after[l].aid);
        assert bindings[k] == NewBinding(was, before, after, pid, l);
      }
    }
  }

  /** Every known row was bound under this profile, no new row was. */
  ghost predicate PlacesKnown(was: Bindings, before: Links, after: Links, pid: string, rows: set<int>) {
    forall l :: l in rows && l in after ==>
      (if l in before then Key(pid, after[l].aid) in was && was[Key(pid, after[l].aid)].legacy == Some(l)
       else Key(pid, after[l].aid) !in was)
  }

  lemma ReboundRises(was: Bindings, bindings: Bindings, before: Links, after: Links, pid: string, rows: set<int>)
    requires Rebound(was, bindings, before, after, pid, rows) && PlacesKnown(was, before, after, pid, rows)
    ensures VersionsRise(was, bindings)
  {
    forall k | k in was
      ensures k in bindings && bindings[k].legacy == was[k].legacy && was[k].version <= bindings[k].version
      ensures was[k].revokedAt != bindings[k].revokedAt || was[k].linkedAt != bindings[k].linkedAt ==>
                was[k].version < bindings[k].version
    {
      if Rewritten(after, pid, rows, k) {
        var l :| l in rows && l in after && k == Key(pid, after[l].aid);
        assert bindings[k] == NewBinding(was, before, after, pid, l);
      }
    }
  }

  lemma BoundStays(sessions: Sessions, a: Bindings, b: Bindings)
    requires SessionsBound(sessions, a) && VersionsRise(a, b)
    ensures SessionsBound(sessions, b)
  {
  }

  // ------------------------------------------------------------------- finish

  lemma FinishedProfiles(a: Db, b: Db, did: string, newPid: string, pid: string)
    requires UniqueLegacy(a.profiles) && ProvidersOk(a.providers, a.profiles) && newPid !in a.profiles
    requires IsChosen(a.profiles, did, newPid, pid) && Changed(a.links, b.links) != {} && Finished(a, b, did, pid)
    requires pid == newPid ==> did !in a.providers
    ensures UniqueLegacy(b.profiles) && IsProfileOf(b.profiles, pid, did) && ProvidersOk(b.providers, b.profiles)
    ensures forall p :: p in a.profiles ==> p in b.profiles && b.profiles[p] == a.profiles[p]
    ensures forall d :: d in a.providers ==> d in b.providers && b.providers[d] == a.providers[d]
  {
    hide Rebound, Claimed, Changed;
  }

  lemma FinishedRebound(a: Db, b: Db, did: string, pid: string)
    requires Changed(a.links, b.links) != {} && Finished(a, b, did, pid)
    ensures Rebound(a.bindings, b.bindings, a.links, b.links, pid, Changed(a.links, b.links))
  {
    hide Rebound, Claimed, Changed, IsProfileOf;
  }

  lemma NewProfileNewProvider(a: Db, after: Links, change: Change, newPid: string, pid: string)
    requires newPid !in a.profiles && IsChosen(a.profiles, change.did, newPid, pid)
    requires Changed(a.links, after) != {} && Acceptable(a, after, change, pid)
    ensures pid == newPid ==> change.did !in a.providers
    ensures a.links.Keys <= after.Keys && PairsUniqueIn(after, after.Keys) && WithinIdentity(a.links, after, change.did)
  {
    hide PairsUniqueIn, ActiveOnceIn, RowsValidIn, WithinIdentity, GrantsAllowed, PlacesFree, Granting, Changed;
  }

  lemma FinishedCarries(a: Db, b: Db, change: Change, newPid: string, pid: string)
    requires Inv(a) && newPid !in a.profiles && Changed(a.links, b.links) != {}
    requires IsChosen(a.profiles, change.did, newPid, pid)
    requires Acceptable(a, b.links, change, pid) && Finished(a, b, change.did, pid)
    ensures CarriedOver(a.links, a.profiles, a.bindings, b.links, b.profiles, b.bindings, change.did, pid)
    ensures ProvidersOk(b.providers, b.profiles)
    ensures forall d :: d in a.providers ==> d in b.providers && b.providers[d] == a.providers[d]
  {
    assert UniqueLegacy(a.profiles) && ProvidersOk(a.providers, a.profiles) && Mirror(a.links, a.profiles, a.bindings);
    hide Inv, Mirror, Rebound, Claimed, WithinIdentity, PairsUniqueIn, Changed, Acceptable, Finished, UniqueLegacy,
         ProvidersOk;
    hide IsChosen, IsProfileOf;
    NewProfileNewProvider(a, b.links, change, newPid, pid);
    FinishedProfiles(a, b, change.did, newPid, pid);
    FinishedRebound(a, b, change.did, pid);
  }

  lemma KnownPlaces(a: Db, after: Links, did: string, pid: string)
    requires Inv(a) && WithinIdentity(a.links, after, did) && PlacesFree(a, after, pid)
    requires (exists p :: p in a.profiles && IsProfileOf(a.profiles, p, did)) ==> IsProfileOf(a.profiles, pid, did)
    ensures PlacesKnown(a.bindings, a.links, after, pid, Changed(a.links, after))
  {
    forall l | l in Changed(a.links, after) && l in a.links
      ensures Key(pid, after[l].aid) in a.bindings && a.bindings[Key(pid, after[l].aid)].legacy == Some(l)
    {
      var p := KnownLinkHasProfile(a, l);
      KnownLinkIsBound(a, pid, l);
    }
  }

  lemma FinishedBindings(a: Db, b: Db, change: Change, newPid: string, pid: string)
    requires Inv(a) && newPid !in a.profiles && Changed(a.links, b.links) != {}
    requires IsChosen(a.profiles, change.did, newPid, pid)
    requires Acceptable(a, b.links, change, pid) && Finished(a, b, change.did, pid)
    ensures Mirror(b.links, b.profiles, b.bindings) && UniqueLegacy(b.profiles) && UniqueActive(b.bindings)
    ensures VersionsRise(a.bindings, b.bindings)
    ensures b.installed ==> OwnersHold(b.bindings, b.owners)
    ensures !b.installed ==> forall k :: k in b.bindings ==> b.bindings[k].legacy.Some?
  {
    var changed := Changed(a.links, b.links);
    FinishedCarries(a, b, change, newPid, pid);
    CarriedMirror(a.links, a.profiles, a.bindings, b.links, b.profiles, b.bindings, change.did, pid);
    KnownPlaces(a, b.links, change.did, pid);
    assert Rebound(a.bindings, b.bindings, a.links, b.links, pid, changed);
    ReboundRises(a.bindings, b.bindings, a.links, b.links, pid, changed);
    if a.installed {
      assert OwnersHold(a.bindings, a.owners) && Claimed(a.owners, b.owners, b.links, pid, changed);
      hide Inv, Acceptable, Finished;
      ClaimsHold(a.bindings, b.bindings, a.owners, b.owners, a.links, b.links, pid, changed);
      OwnersGiveUnique(b.bindings, b.owners);
    } else {
      assert NotYet(a) && LinksValid(b.links);
      hide Inv, Acceptable, Finished;
      AllStillMirror(a.bindings, b.bindings, a.links, b.links, pid, changed);
      MirrorGivesUnique(b.links, b.profiles, b.bindings);
    }
  }

  lemma AllStillMirror(was: Bindings, bindings: Bindings, before: Links, after: Links, pid: string, rows: set<int>)
    requires Rebound(was, bindings, before, after, pid, rows)
    requires forall k :: k in was ==> was[k].legacy.Some?
    ensures forall k :: k in bindings ==> bindings[k].legacy.Some?
  {
    forall k | k in bindings ensures bindings[k].legacy.Some? {
      if Rewritten(after, pid, rows, k) {
        var l :| l in rows && l in after && k == Key(pid, after[l].aid);
        assert bindings[k] == NewBinding(was, before, after, pid, l);
      }
    }
  }

  lemma FinishedReferences(a: Db, b: Db, change: Change, newPid: string, pid: string)
    requires Inv(a) && newPid !in a.profiles && Changed(a.links, b.links) != {}
    requires IsChosen(a.profiles, change.did, newPid, pid)
    requires Acceptable(a, b.links, change, pid) && Finished(a, b, change.did, pid)
    ensures References(b)
  {
    FinishedCarries(a, b, change, newPid, pid);
    assert References(a);
    assert b.passwords == a.passwords && b.passkeys == a.passkeys && b.sessions == a.sessions;
    assert CarriedOver(a.links, a.profiles, a.bindings, b.links, b.profiles, b.bindings, change.did, pid);
    assert ValidIn(b.links, b.links.Keys);
    hide Inv, Acceptable, Finished;
    forall k | k in b.bindings ensures k.pid in b.profiles && k.aid > 0 {
      if Rewritten(b.links, pid, Changed(a.links, b.links), k) {
        var l :| l in Changed(a.links, b.links) && k == Key(pid, b.links[l].aid);
        assert RowValid(l, b.links[l]);
      } else {
        assert k in a.bindings;
      }
    }
  }

  /** Adding ways in and touching no session takes nobody's. */
  lemma MoreProviders(a: Db, b: Db)
    requires CredentialsHold(a) && b.sessions == a.sessions && b.passwords == a.passwords && b.passkeys == a.passkeys
    requires forall d :: d in a.providers ==> d in b.providers && b.providers[d] == a.providers[d]
    ensures CredentialsHold(b) && MethodsKept(a, b)
  {
  }

  lemma RisingLeavesStale(a: Db, b: Db)
    requires b.sessions == a.sessions && VersionsRise(a.bindings, b.bindings)
    ensures StaleStays(a, b)
  {
  }

  /** A change to links, profiles, providers, bindings and owners alone. */
  lemma LinkTablesOnly(a: Db, b: Db)
    requires Inv(a)
    requires b == a.(links := b.links, profiles := b.profiles, providers := b.providers, bindings := b.bindings,
                     owners := b.owners)
    requires UniqueLegacy(b.profiles) && Mirror(b.links, b.profiles, b.bindings) && UniqueActive(b.bindings)
    requires ProvidersOk(b.providers, b.profiles) && References(b) && VersionsRise(a.bindings, b.bindings)
    requires if b.installed then OwnersHold(b.bindings, b.owners) && OwnersKept(a, b) else NotYet(b)
    requires forall d :: d in a.providers ==> d in b.providers && b.providers[d] == a.providers[d]
    ensures Inv(b) && Evolves(a, b) && StaleStays(a, b)
  {
    BoundStays(a.sessions, a.bindings, b.bindings);
    MoreProviders(a, b);
    RisingLeavesStale(a, b);
    EvolvesItself(a);
    hide Mirror, UniqueLegacy, UniqueActive, OwnersHold, ProvidersOk, References, PasskeysBounded, CredentialsHold,
          MethodsKept;
    hide SessionsBound, TokensOk, VersionsRise, StaleStays, ChallengesOk;
  }

  lemma FinishedOwners(a: Db, b: Db, change: Change, newPid: string, pid: string)
    requires Inv(a) && Changed(a.links, b.links) != {}
    requires Acceptable(a, b.links, change, pid) && Finished(a, b, change.did, pid)
    ensures if b.installed then OwnersKept(a, b) else b.owners == a.owners
  {
    hide Inv, Acceptable, Rebound;
  }

  /** An accepted change keeps everything: the tables stay in correspondence, owners
      and versions are only added to and raised, and no session comes back to life. */
  lemma FinishedKeeps(a: Db, b: Db, change: Change, newPid: string, pid: string)
    requires Inv(a) && newPid !in a.profiles && Changed(a.links, b.links) != {}
    requires IsChosen(a.profiles, change.did, newPid, pid)
    requires Acceptable(a, b.links, change, pid) && Finished(a, b, change.did, pid)
    ensures Inv(b) && Evolves(a, b) && StaleStays(a, b)
  {
    FinishedCarries(a, b, change, newPid, pid);
    FinishedBindings(a, b, change, newPid, pid);
    FinishedReferences(a, b, change, newPid, pid);
    FinishedOwners(a, b, change, newPid, pid);
    assert b == a.(links := b.links, profiles := b.profiles, providers := b.providers, bindings := b.bindings,
                   owners := b.owners);
    assert !a.installed ==> NotYet(a);
    hide Inv, Acceptable, Finished, CarriedOver, Evolves, OwnersKept;
    LinkTablesOnly(a, b);
  }

  /** The profile that a change falls to, made when the identity is new. */
  method ChooseProfile(db: Db, after: Links, did: string, found: Option<string>, pid: string, granting: bool)
    returns (r: Result<(Profiles, Providers), MigrationError>)
    requires found.Some? ==> IsProfileOf(db.profiles, pid, did) && UniqueLegacy(db.profiles)
    requires found.None? ==> forall p :: p in db.profiles ==> !IsProfileOf(db.profiles, p, did)
    requires granting == Granting(db.links, after)
    ensures r.Ok? <==> ProfileReady(db, after, did)
    ensures r.Ok? && found.Some? ==> r.value == (db.profiles, db.providers)
    ensures r.Ok? && found.None? ==>
              r.value == (db.profiles[pid := Profile(Some(did), false)], db.providers[did := Provider(pid, false)])
  {
    if found.None? {
      if !granting || exists l :: l in db.links && db.links[l].did == did {
        return Err(ProfileMissing);
      }
      if did in db.providers {
        return Err(ProviderConflict);
      }
      return Ok((db.profiles[pid := Profile(Some(did), false)], db.providers[did := Provider(pid, false)]));
    }
    if granting && (db.profiles[pid].disabled || did !in db.providers || db.providers[did] != Provider(pid, false)) {
      return Err(ProviderUnavailable);
    }
    return Ok((db.profiles, db.providers));
  }

  /** The rows of a change that grant, and those that do not. */
  lemma RowsAllowedAre(db: Db, after: Links, pid: string, rows: set<int>)
    requires rows == Changed(db.links, after)
    ensures (forall l :: l in rows ==> RowAllowed(db, db.links, after, pid, l)) <==>
              GrantsAllowed(db, after, pid) && PlacesFree(db, after, pid)
  {
    if GrantsAllowed(db, after, pid) && PlacesFree(db, after, pid) {
    } else if l :| l in rows && after[l].revokedAt.None? && !GrantAllowed(db, pid, after[l].aid) {
      assert !RowAllowed(db, db.links, after, pid, l);
    } else {
      var l :| l in rows && l !in db.links && Key(pid, after[l].aid) in db.bindings;
      assert !RowAllowed(db, db.links, after, pid, l);
    }
  }

  lemma NothingRebound(db: Db, after: Links, pid: string)
    ensures Rebound(db.bindings, db.bindings, db.links, after, pid, {}) && OwnersAfter(db, db.owners, after, pid, {})
  {
  }

  lemma KnownRowsBound(db: Db, after: Links, did: string, pid: string, found: Option<string>)
    requires Inv(db) && WithinIdentity(db.links, after, did)
    requires found.Some? ==> IsProfileOf(db.profiles, pid, did)
    requires found.None? ==> forall p :: p in db.profiles ==> !IsProfileOf(db.profiles, p, did)
    ensures forall l :: l in Changed(db.links, after) && l in db.links ==> Key(pid, after[l].aid) in db.bindings
  {
    forall l | l in Changed(db.links, after) && l in db.links ensures Key(pid, after[l].aid) in db.bindings {
      var p := KnownLinkHasProfile(db, l);
      KnownLinkIsBound(db, p, l);
      if found.Some? {
        KnownLinkIsBound(db, pid, l);
      }
    }
  }

  /** Revoked rows first, so that a relink never meets the one-holder index. */
  method CarryAll(db: Db, after: Links, pid: string, changed: set<int>)
    returns (r: Result<(Bindings, Owners), MigrationError>)
    requires changed <= after.Keys && OwnPlaces(after, pid, changed)
    requires forall l :: l in changed && l in db.links ==> Key(pid, after[l].aid) in db.bindings
    ensures r.Ok? <==> forall l :: l in changed ==> RowAllowed(db, db.links, after, pid, l)
    ensures r.Ok? ==> Rebound(db.bindings, r.value.0, db.links, after, pid, changed)
    ensures r.Ok? ==> OwnersAfter(db, r.value.1, after, pid, changed)
  {
    NothingRebound(db, after, pid);
    hide RowAllowed, Rebound, OwnPlaces, OwnersAfter;
    var revoked := set l | l in changed && after[l].revokedAt.Some?;
    var granted := changed - revoked;
    assert {} + revoked + granted == changed && {} + revoked == revoked;
    PartHasOwnPlaces(after, pid, changed, {} + revoked);
    var first := CarryRows(db, after, pid, revoked, db.bindings, db.owners, {});
    if first.Err? {
      return Err(first.error);
    }
    r := CarryRows(db, after, pid, granted, first.value.0, first.value.1, {} + revoked);
  }

  lemma ChangeReady(db: Db, after: Links, did: string, pid: string, found: Option<string>)
    requires Inv(db) && WithinIdentity(db.links, after, did) && LinksValid(after)
    requires found.Some? ==> IsProfileOf(db.profiles, pid, did)
    requires found.None? ==> forall p :: p in db.profiles ==> !IsProfileOf(db.profiles, p, did)
    ensures UniqueLegacy(db.profiles) && OwnPlaces(after, pid, Changed(db.links, after))
    ensures Changed(db.links, after) <= after.Keys
    ensures forall l :: l in Changed(db.links, after) && l in db.links ==> Key(pid, after[l].aid) in db.bindings
    ensures (forall l :: l in Changed(db.links, after) ==> RowAllowed(db, db.links, after, pid, l)) <==>
            GrantsAllowed(db, after, pid) && PlacesFree(db, after, pid)
  {
    assert PairsUniqueIn(after, after.Keys) && UniqueLegacy(db.profiles);
    KnownRowsBound(db, after, did, pid, found);
    WithinHasOwnPlaces(db.links, after, did, pid);
    RowsAllowedAre(db, after, pid, Changed(db.links, after));
    hide Inv, LinksValid, WithinIdentity, GrantsAllowed, PlacesFree, RowAllowed, OwnPlaces, PairsUniqueIn, UniqueLegacy;
  }

  method CarryChange(db: Db, after: Links, change: Change, found: Option<string>, pid: string, granting: bool)
    returns (r: Result<Db, MigrationError>)
    requires Inv(db) && change.before == db.links && WithinIdentity(db.links, after, change.did) && LinksValid(after)
    requires found.Some? ==> IsProfileOf(db.profiles, pid, change.did)
    requires found.None? ==> forall p :: p in db.profiles ==> !IsProfileOf(db.profiles, p, change.did)
    requires granting == Granting(db.links, after) && Changed(db.links, after) != {}
    ensures r.Ok? <==>
              ProfileReady(db, after, change.did) && GrantsAllowed(db, after, pid) && PlacesFree(db, after, pid)
    ensures r.Ok? ==> Finished(db, r.value, change.did, pid) && r.value.links == after
  {
    hide Inv, UniqueLegacy, WithinIdentity, LinksValid, ProfileReady, GrantsAllowed, PlacesFree, RowAllowed, Rebound,
         OwnPlaces;
    hide Granting, Claimed, Changed;
    var changed := Changed(db.links, after);
    ChangeReady(db, after, change.did, pid, found);
    var ready := ChooseProfile(db, after, change.did, found, pid, granting);
    if ready.Err? {
      return Err(ready.error);
    }
    var carried := CarryAll(db, after, pid, changed);
    if carried.Err? {
      return Err(carried.error);
    }
    return Ok(db.(links := after, profiles := ready.value.0, providers := ready.value.1,
                  bindings := carried.value.0, owners := carried.value.1));
  }

  lemma PartHasOwnPlaces(after: Links, pid: string, rows: set<int>, part: set<int>)
    requires OwnPlaces(after, pid, rows) && part <= rows
    ensures OwnPlaces(after, pid, part)
  {
  }

  /** The row is new, or is not what it was. */
  predicate Altered(before: Links, after: Links, l: int) {
    l in after && (l in before ==> after[l] != before[l])
  }

  /** The row is altered, and gives an account. */
  predicate Granted(before: Links, after: Links, l: int) {
    Altered(before, after, l) && after[l].revokedAt.None?
  }

  /** The edits that are accepted: the table stays sound and loses no row; every altered
      row was and is of the identity and keeps its account; a new row takes a place that
      the profile has never had; and accounts are given only when the change allows it,
      to an enabled profile with its provider, or to one that is made for an identity
      without links and provider, and nobody else is on record as their owner. */
  ghost predicate EditAllowed(a: Db, after: Links, change: Change, pid: string) {
    && SoundLinks(after) && (forall l :: l in a.links ==> l in after)
    && (forall l :: Altered(a.links, after, l) ==>
          && after[l].did == change.did
          && (if l in a.links then a.links[l].did == change.did && a.links[l].aid == after[l].aid
              else Key(pid, after[l].aid) !in a.bindings)
          && (if pid in a.profiles && a.profiles[pid].legacy == Some(change.did) then true
              else
                && change.did !in a.providers && (forall m :: m in a.links ==> a.links[m].did != change.did)
                && exists m :: Granted(a.links, after, m)))
    && (forall l :: Granted(a.links, after, l) ==>
          && change.allowGrant
          && (a.installed && after[l].aid in a.owners ==> a.owners[after[l].aid] == Some(pid))
          && (pid in a.profiles && a.profiles[pid].legacy == Some(change.did) ==>
                && !a.profiles[pid].disabled && change.did in a.providers
                && a.providers[change.did] == Provider(pid, false)))
  }

  lemma ChangedIsAltered(before: Links, after: Links)
    ensures forall l :: l in Changed(before, after) <==> Altered(before, after, l)
    ensures Granting(before, after) <==> exists l :: Granted(before, after, l)
  {
    if l :| Granted(before, after, l) {
      assert l in Changed(before, after);
    }
    if Granting(before, after) {
      var l :| l in Changed(before, after) && after[l].revokedAt.None?;
      assert Granted(before, after, l);
    }
  }

  lemma ProfileRule(a: Db, after: Links, did: string, newPid: string, pid: string)
    requires UniqueLegacy(a.profiles) && newPid !in a.profiles && IsChosen(a.profiles, did, newPid, pid)
    ensures var known := pid in a.profiles && a.profiles[pid].legacy == Some(did);
            ProfileReady(a, after, did) <==>
              if known then
                Granting(a.links, after) ==>
                  !a.profiles[pid].disabled && did in a.providers && a.providers[did] == Provider(pid, false)
              else Granting(a.links, after) && did !in a.providers && forall l :: l in a.links ==> a.links[l].did != did
  {
    hide Granting;
    if pid != newPid {
      assert IsProfileOf(a.profiles, pid, did);
      assert forall p :: p in a.profiles && IsProfileOf(a.profiles, p, did) ==> p == pid;
    }
  }

  lemma AcceptableIsAllowed(a: Db, after: Links, change: Change, newPid: string, pid: string)
    requires UniqueLegacy(a.profiles) && newPid !in a.profiles && IsChosen(a.profiles, change.did, newPid, pid)
    ensures Acceptable(a, after, change, pid) <==> EditAllowed(a, after, change, pid)
  {
    hide *;
    ValidIsSound(after);
    ChangedIsAltered(a.links, after);
    if Changed(a.links, after) == {} {
      UnalteredIsAllowed(a, after, change, pid);
    } else {
      ProfileRule(a, after, change.did, newPid, pid);
      if Acceptable(a, after, change, pid) {
        AllowedThen(a, after, change, pid);
      }
      if EditAllowed(a, after, change, pid) {
        AcceptableThen(a, after, change, pid);
      }
    }
  }

  lemma UnalteredIsAllowed(a: Db, after: Links, change: Change, pid: string)
    requires Changed(a.links, after) == {} && (LinksValid(after) <==> SoundLinks(after))
    requires forall l :: l in Changed(a.links, after) <==> Altered(a.links, after, l)
    ensures Acceptable(a, after, change, pid) <==> EditAllowed(a, after, change, pid)
  {
    hide LinksValid, SoundLinks, ProfileReady, Changed, Altered;
    assert forall l :: !Altered(a.links, after, l);
    assert a.links.Keys <= after.Keys <==> forall l :: l in a.links ==> l in after by {
      if a.links.Keys <= after.Keys {
        forall l | l in a.links ensures l in after {
          assert l in a.links.Keys;
        }
      }
      if forall l :: l in a.links ==> l in after {
        forall l | l in a.links.Keys ensures l in after.Keys {
          assert l in a.links;
        }
      }
    }
  }

  lemma AlteredIsKnown(before: Links, after: Links)
    ensures forall l :: Altered(before, after, l) ==> l in after
  {
  }

  lemma AllowedThen(a: Db, after: Links, change: Change, pid: string)
    requires Acceptable(a, after, change, pid) && Changed(a.links, after) != {}
    requires LinksValid(after) <==> SoundLinks(after)
    requires forall l :: l in Changed(a.links, after) <==> Altered(a.links, after, l)
    requires Granting(a.links, after) <==> exists l :: Granted(a.links, after, l)
    requires var known := pid in a.profiles && a.profiles[pid].legacy == Some(change.did);
             ProfileReady(a, after, change.did) <==>
               if known then
                 Granting(a.links, after) ==>
                   && !a.profiles[pid].disabled && change.did in a.providers
                   && a.providers[change.did] == Provider(pid, false)
               else
                 && Granting(a.links, after) && change.did !in a.providers
                 && forall l :: l in a.links ==> a.links[l].did != change.did
    ensures EditAllowed(a, after, change, pid)
  {
    hide LinksValid, SoundLinks, ProfileReady, Changed, Granting, Altered;
    AlteredIsKnown(a.links, after);
  }

  lemma AcceptableThen(a: Db, after: Links, change: Change, pid: string)
    requires EditAllowed(a, after, change, pid) && Changed(a.links, after) != {}
    requires LinksValid(after) <==> SoundLinks(after)
    requires forall l :: l in Changed(a.links, after) <==> Altered(a.links, after, l)
    requires Granting(a.links, after) <==> exists l :: Granted(a.links, after, l)
    requires var known := pid in a.profiles && a.profiles[pid].legacy == Some(change.did);
             ProfileReady(a, after, change.did) <==>
               if known then
                 Granting(a.links, after) ==>
                   && !a.profiles[pid].disabled && change.did in a.providers
                   && a.providers[change.did] == Provider(pid, false)
               else
                 && Granting(a.links, after) && change.did !in a.providers
                 && forall l :: l in a.links ==> a.links[l].did != change.did
    ensures Acceptable(a, after, change, pid)
  {
    hide LinksValid, SoundLinks, ProfileReady, Changed, Granting, Altered;
    AlteredIsKnown(a.links, after);
    EmptyOrMember(Changed(a.links, after));
    var l :| l in Changed(a.links, after);
    assert Altered(a.links, after, l);
    forall m | m in a.links.Keys ensures m in after.Keys {
      assert m in a.links;
    }
    assert WithinIdentity(a.links, after, change.did) by {
      forall m | m in Changed(a.links, after)
        ensures after[m].did == change.did
                && (m in a.links ==> a.links[m].did == change.did && a.links[m].aid == after[m].aid)
      {
        assert Altered(a.links, after, m);
      }
    }
    assert PlacesFree(a, after, pid) by {
      forall m | m in Changed(a.links, after) && m !in a.links ensures Key(pid, after[m].aid) !in a.bindings {
        assert Altered(a.links, after, m);
      }
    }
    assert GrantsAllowed(a, after, pid) by {
      forall m | m in Changed(a.links, after) && after[m].revokedAt.None? ensures GrantAllowed(a, pid, after[m].aid) {
        assert Granted(a.links, after, m);
      }
    }
    if g :| Granted(a.links, after, g) {
      assert change.allowGrant;
    }
    assert ProfileReady(a, after, change.did);
  }

  /** Every altered row is the profile's binding, under version 2 if it is new and one
      past what it was if not; every other binding is as it was. */
  ghost predicate BindingsDone(a: Db, b: Db, pid: string) {
    && (forall l :: Altered(a.links, b.links, l) ==>
          var k := Key(pid, b.links[l].aid);
          && k in b.bindings && b.bindings[k].legacy == Some(l) && b.bindings[k].linkedAt == b.links[l].linkedAt
          && b.bindings[k].revokedAt == b.links[l].revokedAt
          && (if l in a.links then k in a.bindings && b.bindings[k].version == a.bindings[k].version + 1
              else b.bindings[k].version == 2))
    && (forall k :: k in a.bindings ==> k in b.bindings)
    && (forall k :: k in b.bindings && (k !in a.bindings || b.bindings[k] != a.bindings[k]) ==>
          k.pid == pid && exists l :: Altered(a.links, b.links, l) && b.links[l].aid == k.aid)
  }

  /** The accounts given have their owner on record, and nothing else is recorded. */
  ghost predicate OwnersDone(a: Db, b: Db, pid: string) {
    && (forall n :: n in a.owners ==> n in b.owners && b.owners[n] == a.owners[n])
    && (a.installed ==> forall l :: Granted(a.links, b.links, l) ==>
                          b.links[l].aid in b.owners && b.owners[b.links[l].aid] == Some(pid))
    && (forall n :: n in b.owners && n !in a.owners ==>
          a.installed && exists l :: Granted(a.links, b.links, l) && b.links[l].aid == n)
  }

  /** What an accepted edit leaves: bindings and owners, and for a new identity its
      profile and its provider. */
  ghost predicate EditDone(a: Db, b: Db, did: string, pid: string) {
    && b == a.(links := b.links, profiles := b.profiles, providers := b.providers, bindings := b.bindings,
               owners := b.owners)
    && BindingsDone(a, b, pid) && OwnersDone(a, b, pid)
    && (if b.links == a.links || (pid in a.profiles && a.profiles[pid].legacy == Some(did))
        then b.profiles == a.profiles && b.providers == a.providers
        else
          && b.profiles == a.profiles[pid := Profile(Some(did), false)]
          && b.providers == a.providers[did := Provider(pid, false)])
  }

  lemma FinishedIsDone(a: Db, b: Db, did: string, pid: string)
    requires Finished(a, b, did, pid) && a.links.Keys <= b.links.Keys
    ensures EditDone(a, b, did, pid)
  {
    if Changed(a.links, b.links) == {} {
      NothingChanged(a.links, b.links);
    } else {
      assert b.links != a.links by {
        EmptyOrMember(Changed(a.links, b.links));
        var l :| l in Changed(a.links, b.links);
      }
      hide Changed, Granting, Rebound, Claimed, BindingsDone, OwnersDone;
      DoneBindings(a, b, did, pid);
      DoneOwners(a, b, did, pid);
    }
  }

  lemma DoneBindings(a: Db, b: Db, did: string, pid: string)
    requires Finished(a, b, did, pid) && Changed(a.links, b.links) != {}
    ensures BindingsDone(a, b, pid)
  {
    ChangedIsAltered(a.links, b.links);
    var changed := Changed(a.links, b.links);
    assert Rebound(a.bindings, b.bindings, a.links, b.links, pid, changed);
    hide Changed, Granting, Claimed, Finished;
    forall l | Altered(a.links, b.links, l)
      ensures Key(pid, b.links[l].aid) in b.bindings && (l in a.links ==> Key(pid, b.links[l].aid) in a.bindings)
              && b.bindings[Key(pid, b.links[l].aid)] == NewBinding(a.bindings, a.links, b.links, pid, l)
    {
      assert l in changed;
    }
    forall k | k in b.bindings && (k !in a.bindings || b.bindings[k] != a.bindings[k])
      ensures k.pid == pid && exists l :: Altered(a.links, b.links, l) && b.links[l].aid == k.aid
    {
      assert Rewritten(b.links, pid, changed, k);
      var l :| l in changed && l in b.links && k == Key(pid, b.links[l].aid);
      assert Altered(a.links, b.links, l);
    }
  }

  lemma DoneOwners(a: Db, b: Db, did: string, pid: string)
    requires Finished(a, b, did, pid) && Changed(a.links, b.links) != {}
    ensures OwnersDone(a, b, pid)
  {
    ChangedIsAltered(a.links, b.links);
    var changed := Changed(a.links, b.links);
    hide Changed, Granting, Rebound;
    if a.installed {
      assert Claimed(a.owners, b.owners, b.links, pid, changed);
      forall l | Granted(a.links, b.links, l)
        ensures b.links[l].aid in b.owners && b.owners[b.links[l].aid] == Some(pid)
      {
        assert l in changed;
      }
      forall n | n in b.owners && n !in a.owners
        ensures exists l :: Granted(a.links, b.links, l) && b.links[l].aid == n
      {
        var l :| l in changed && l in b.links && b.links[l].revokedAt.None? && b.links[l].aid == n;
        assert Granted(a.links, b.links, l);
      }
    }
  }

  lemma NothingChanged(before: Links, after: Links)
    requires before.Keys <= after.Keys && Changed(before, after) == {}
    ensures before == after
  {
    assert forall l :: l in after ==> l in Changed(before, after) || (l in before && before[l] == after[l]);
  }

  /** Whether the caller's edits are accepted, and what the tables are then. */
  method JudgeChange(db: Db, after: Links, change: Change, newPid: string)
    returns (r: Result<Db, MigrationError>, pid: string)
    requires Inv(db) && newPid !in db.profiles && change.before == db.links
    ensures IsChosen(db.profiles, change.did, newPid, pid)
    ensures r.Ok? <==> Acceptable(db, after, change, pid)
    ensures r.Ok? ==> r.value.links == after && Finished(db, r.value, change.did, pid)
    ensures r.Ok? ==> Inv(r.value) && Evolves(db, r.value) && StaleStays(db, r.value)
  {
    var found := FindProfile(db.profiles, change.did);
    pid := if found.Some? then found.value else newPid;
    var checked := SourceLinks(after);
    if checked.Err? {
      r := Err(checked.error);
      return;
    }
    if !(db.links.Keys <= after.Keys) {
      r := Err(DeletionRefused);
      return;
    }
    var changed := Changed(db.links, after);
    if changed == {} {
      EvolvesItself(db);
      assert after == db.links by { NothingChanged(db.links, after); }
      r := Ok(db);
      return;
    }
    if !WithinIdentity(db.links, after, change.did) {
      r := Err(OutsideIdentity);
      return;
    }
    var granting := Granting(db.links, after);
    if granting && !change.allowGrant {
      r := Err(GrantNotAuthorized);
      return;
    }
    hide LinksValid, SoundLinks, WithinIdentity, Inv, Finished, ProfileReady, GrantsAllowed, PlacesFree;
    r := CarryChange(db, after, change, found, pid, granting);
    if r.Ok? {
      FinishedKeeps(db, r.value, change, newPid, pid);
    }
  }

  lemma OneProfileEach(db: Db)
    requires Inv(db)
    ensures UniqueLegacy(db.profiles)
  {
  }

  lemma AcceptedKeepsRows(db: Db, after: Links, change: Change, pid: string)
    requires Acceptable(db, after, change, pid)
    ensures db.links.Keys <= after.Keys
  {
  }

  /** Copies the caller's edits over to the bindings, or undoes everything since
      begin. The bindings of known links are always found, because the tables mirror
      each other. */
  method FinishLegacyLinks(conn: Connection, change: Change, newPid: string)
    returns (r: Result<(), MigrationError>, ghost pid: string)
    requires newPid !in conn.db.profiles
    requires conn.begun.Some? ==>
               && Inv(conn.begun.value) && conn.db == conn.begun.value.(links := conn.db.links)
               && change.before == conn.begun.value.links
    modifies conn
    ensures IsChosen(old(conn.db.profiles), change.did, newPid, pid)
    ensures old(conn.begun).None? ==> r == Err(TransactionLost) && conn.db == old(conn.db) && conn.begun.None?
    ensures r.Ok? <==> old(conn.begun).Some? && Acceptable(old(conn.begun).value, old(conn.db.links), change, pid)
    ensures r.Err? && old(conn.begun).Some? ==> conn.db == old(conn.begun).value && conn.begun.None?
    ensures r.Ok? <==> old(conn.begun).Some? && EditAllowed(old(conn.begun).value, old(conn.db.links), change, pid)
    ensures r.Ok? ==> EditDone(old(conn.begun).value, conn.db, change.did, pid)
    ensures r.Ok? ==>
              && conn.begun == old(conn.begun) && Finished(old(conn.begun).value, conn.db, change.did, pid)
              && conn.db.links == old(conn.db.links)
              && Inv(conn.db) && Evolves(old(conn.begun).value, conn.db) && StaleStays(old(conn.begun).value, conn.db)
  {
    hide *;
    if conn.begun.None? {
      var found := FindProfile(conn.db.profiles, change.did);
      pid := if found.Some? then found.value else newPid;
      ChosenWhenFound(conn.db.profiles, change.did, found, newPid);
      r := Err(TransactionLost);
      return;
    }
    var start, after := conn.begun.value, conn.db.links;
    var judged, chosen := JudgeChange(start, after, change, newPid);
    pid := chosen;
    OneProfileEach(start);
    AcceptableIsAllowed(start, after, change, newPid, pid);
    if judged.Err? {
      conn.Rollback();
      r := Err(judged.error);
      return;
    }
    AcceptedKeepsRows(start, after, change, pid);
    FinishedIsDone(start, judged.value, change.did, pid);
    conn.db := judged.value;
    r := Ok(());
  }

  lemma ChosenWhenFound(profiles: Profiles, did: string, found: Option<string>, newPid: string)
    requires newPid !in profiles
    requires if found.Some? then IsProfileOf(profiles, found.value, did)
             else forall p :: p in profiles ==> !IsProfileOf(profiles, p, did)
    ensures IsChosen(profiles, did, newPid, if found.Some? then found.value else newPid)
  {
  }
}
