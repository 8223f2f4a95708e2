/** The one-time migration: every Discord identity of the older table gets a profile
    and a provider, every link a binding that says the same; all of it or nothing. */
module PortalBackfill {
  import opened Wrappers
  import opened PortalTables
  import opened PortalIdentity

  // ------------------------------------------------------------- what it makes

  /** One live profile and one live provider for a Discord identity. */
  predicate Held(profiles: Profiles, providers: Providers, did: string) {
    && did in providers && !providers[did].revoked && providers[did].pid in profiles
    && profiles[providers[did].pid] == Profile(Some(did), false)
  }

  /** The binding of a link, field by field. */
  predicate Bound(providers: Providers, bindings: Bindings, l: int, link: Link) {
    && link.did in providers && var k := Key(providers[link.did].pid, link.aid);
    && k in bindings && bindings[k].legacy == Some(l) && bindings[k].linkedAt == link.linkedAt
    && bindings[k].revokedAt == link.revokedAt
  }

  ghost predicate AllHeld(profiles: Profiles, providers: Providers, dids: set<string>) {
    forall d :: d in dids ==> Held(profiles, providers, d)
  }

  ghost predicate AllBound(links: Links, providers: Providers, bindings: Bindings, ids: set<int>) {
    forall l :: l in ids && l in links ==> Bound(providers, bindings, l, links[l])
  }

  predicate Sourced(links: Links, bindings: Bindings) {
    forall k :: k in bindings && bindings[k].legacy.Some? ==> bindings[k].legacy.value in links
  }

  function Identities(links: Links): set<string> {
    set l | l in links :: links[l].did
  }

  /** The migration has nothing left to do. */
  ghost predicate Backfilled(db: Db) {
    && LinksValid(db.links) && AllHeld(db.profiles, db.providers, Identities(db.links))
    && AllBound(db.links, db.providers, db.bindings, db.links.Keys) && Sourced(db.links, db.bindings)
  }

  // ------------------------------------------------------- what it can work from

  /** The identity is held as it should be, or nothing of it is there yet. */
  predicate MayHold(profiles: Profiles, providers: Providers, did: string) {
    || Held(profiles, providers, did)
    || (did !in providers && forall p :: p in profiles ==> !IsProfileOf(profiles, p, did))
  }

  /** The link is bound as it should be; or its binding is not there, no other one
      names it, and nobody else holds the account it makes active. */
  predicate MayBind(providers: Providers, bindings: Bindings, l: int, link: Link) {
    || Bound(providers, bindings, l, link)
    || (&& (link.did in providers ==> Key(providers[link.did].pid, link.aid) !in bindings)
        && (forall k :: k in bindings ==> bindings[k].legacy != Some(l))
        && (link.revokedAt.None? ==> forall k :: k in bindings && k.aid == link.aid ==> bindings[k].revokedAt.Some?))
  }

  ghost predicate AllMayBind(links: Links, providers: Providers, bindings: Bindings) {
    forall l :: l in links ==> MayBind(providers, bindings, l, links[l])
  }

  ghost predicate AllMayHold(profiles: Profiles, providers: Providers, dids: set<string>) {
    forall d :: d in dids ==> MayHold(profiles, providers, d)
  }

  /** Exactly the databases that can be migrated. */
  ghost predicate Migratable(db: Db) {
    && LinksValid(db.links) && AllMayHold(db.profiles, db.providers, Identities(db.links))
    && AllMayBind(db.links, db.providers, db.bindings) && Sourced(db.links, db.bindings)
  }

  /** The identity has a live provider, of an enabled profile made for it. */
  ghost predicate IdentityReady(db: Db, did: string) {
    && did in db.providers && !db.providers[did].revoked && db.providers[did].pid in db.profiles
    && !db.profiles[db.providers[did].pid].disabled && db.profiles[db.providers[did].pid].legacy == Some(did)
  }

  /** That profile has a binding which names the link, with its stamps. */
  ghost predicate LinkReady(db: Db, l: int)
    requires l in db.links
  {
    && db.links[l].did in db.providers
    && var k := Key(db.providers[db.links[l].did].pid, db.links[l].aid);
    && k in db.bindings && db.bindings[k].legacy == Some(l) && db.bindings[k].linkedAt == db.links[l].linkedAt
    && db.bindings[k].revokedAt == db.links[l].revokedAt
  }

  /** The migration is done: link by link. */
  ghost predicate AllReady(db: Db) {
    && SoundLinks(db.links)
    && (forall l :: l in db.links ==> IdentityReady(db, db.links[l].did) && LinkReady(db, l))
    && (forall k :: k in db.bindings && db.bindings[k].legacy.Some? ==> db.bindings[k].legacy.value in db.links)
  }

  /** Nothing is there of the identity. */
  ghost predicate Unknown(db: Db, did: string) {
    did !in db.providers && forall p :: p in db.profiles ==> db.profiles[p].legacy != Some(did)
  }

  /** The place of the link's binding is free, no other binding names the link, and nobody
      holds the account if the link is active. */
  ghost predicate PlaceFree(db: Db, l: int)
    requires l in db.links
  {
    var link := db.links[l];
    && (link.did in db.providers ==> Key(db.providers[link.did].pid, link.aid) !in db.bindings)
    && (forall k :: k in db.bindings ==> db.bindings[k].legacy != Some(l))
    && (link.revokedAt.None? ==>
          forall k :: k in db.bindings && k.aid == link.aid ==> db.bindings[k].revokedAt.Some?)
  }

  /** It can be done: of each identity everything is there or nothing, and the binding of
      each link is there or there is room for it. */
  ghost predicate CanMigrate(db: Db) {
    && SoundLinks(db.links)
    && (forall l :: l in db.links ==>
          var link := db.links[l];
          (IdentityReady(db, link.did) || Unknown(db, link.did)) && (LinkReady(db, l) || PlaceFree(db, l)))
    && (forall k :: k in db.bindings && db.bindings[k].legacy.Some? ==> db.bindings[k].legacy.value in db.links)
  }

  lemma HeldIsReady(db: Db, did: string)
    ensures Held(db.profiles, db.providers, did) <==> IdentityReady(db, did)
  {
  }

  lemma BackfilledIsReady(db: Db)
    ensures Backfilled(db) <==> AllReady(db)
  {
    ValidIsSound(db.links);
    forall l | l in db.links
      ensures db.links[l].did in Identities(db.links)
      ensures Held(db.profiles, db.providers, db.links[l].did) <==> IdentityReady(db, db.links[l].did)
      ensures Bound(db.providers, db.bindings, l, db.links[l]) <==> LinkReady(db, l)
    {
      HeldIsReady(db, db.links[l].did);
    }
    hide LinksValid, SoundLinks, Held, Bound, IdentityReady, LinkReady;
  }

  lemma MayHoldMeans(db: Db, did: string)
    ensures MayHold(db.profiles, db.providers, did) <==> IdentityReady(db, did) || Unknown(db, did)
  {
    HeldIsReady(db, did);
    hide Held, IdentityReady;
  }

  lemma MayBindMeans(db: Db, l: int)
    requires l in db.links
    ensures MayBind(db.providers, db.bindings, l, db.links[l]) <==> LinkReady(db, l) || PlaceFree(db, l)
  {
    assert Bound(db.providers, db.bindings, l, db.links[l]) <==> LinkReady(db, l);
    hide Bound, LinkReady;
  }

  lemma MigratableCan(db: Db)
    ensures Migratable(db) <==> CanMigrate(db)
  {
    ValidIsSound(db.links);
    forall l | l in db.links
      ensures db.links[l].did in Identities(db.links)
      ensures MayHold(db.profiles, db.providers, db.links[l].did) <==>
                IdentityReady(db, db.links[l].did) || Unknown(db, db.links[l].did)
      ensures MayBind(db.providers, db.bindings, l, db.links[l]) <==> LinkReady(db, l) || PlaceFree(db, l)
    {
      MayHoldMeans(db, db.links[l].did);
      MayBindMeans(db, l);
    }
    hide LinksValid, SoundLinks, MayHold, MayBind, IdentityReady, LinkReady, Unknown, PlaceFree;
  }

  /** A finished migration can be run again. */
  lemma BackfilledIsMigratable(db: Db)
    requires Backfilled(db)
    ensures Migratable(db)
  {
    hide LinksValid, Sourced, Identities, Held, Bound;
  }

  // ------------------------------------------------------ what the schema keeps

  ghost predicate UniqueSource(bindings: Bindings) {
    forall j, k | j in bindings && k in bindings && bindings[j].legacy.Some? ::
      bindings[j].legacy == bindings[k].legacy ==> j == k
  }

  /** The unique indexes and foreign keys of the three profile tables. */
  ghost predicate Schema(db: Db) {
    && UniqueLegacy(db.profiles) && ProvidersOk(db.providers, db.profiles)
    && UniqueSource(db.bindings) && UniqueActive(db.bindings)
    && forall k :: k in db.bindings ==> k.pid in db.profiles && k.aid > 0
  }

  /** A migrated database in which nobody has signed in yet starts every run. */
  lemma MigratedIsSound(db: Db)
    requires Schema(db) && Backfilled(db) && !db.installed && NotYet(db)
    ensures Inv(db)
  {
    MigratedMirrors(db);
    assert References(db) && CredentialsHold(db);
    hide Mirror, UniqueLegacy, UniqueActive, ProvidersOk, Backfilled, UniqueSource;
    forall pid ensures |ActiveKeys(db.passkeys, pid)| <= 8 {
      assert ActiveKeys(db.passkeys, pid) == {};
    }
  }

  lemma MigratedMirrors(db: Db)
    requires Schema(db) && Backfilled(db)
    ensures Mirror(db.links, db.profiles, db.bindings)
  {
    hide LinksValid;
    forall l | l in db.links
      ensures MirroredBy(db.links, db.bindings, l, db.providers[db.links[l].did].pid)
    {
      assert db.links[l].did in Identities(db.links);
    }
    forall k | k in db.bindings && db.bindings[k].legacy.Some?
      ensures Mirrors(db.links, db.profiles, k, db.bindings[k])
    {
      var l := db.bindings[k].legacy.value;
      assert db.links[l].did in Identities(db.links) && Bound(db.providers, db.bindings, l, db.links[l]);
    }
  }

  /** Where the tables mirror each other the migration has nothing left to do, if it
      can be run at all. */
  lemma SoundIsBackfilled(db: Db)
    requires Inv(db) && Migratable(db)
    ensures Backfilled(db)
  {
    assert Mirror(db.links, db.profiles, db.bindings) && UniqueLegacy(db.profiles);
    hide Inv, LinksValid, Sourced;
    forall l | l in db.links
      ensures Held(db.profiles, db.providers, db.links[l].did) && Bound(db.providers, db.bindings, l, db.links[l])
    {
      var p :| MirroredBy(db.links, db.bindings, l, p);
      assert Mirrors(db.links, db.profiles, Key(p, db.links[l].aid), db.bindings[Key(p, db.links[l].aid)]);
      assert db.links[l].did in Identities(db.links) && MayHold(db.profiles, db.providers, db.links[l].did);
      assert IsProfileOf(db.profiles, p, db.links[l].did);
      SameProfile(db.profiles, p, db.providers[db.links[l].did].pid, db.links[l].did);
    }
    assert forall d :: d in Identities(db.links) ==> Held(db.profiles, db.providers, d);
  }

  // ------------------------------------------------------------------ the steps

  datatype Summary = Summary(
    profilesCreated: nat, providersCreated: nat, bindingsCreated: nat,
    legacyLinks: nat, legacyProfiles: nat, activeAccounts: nat, revokedLinks: nat)

  /** Nothing was altered. */
  ghost predicate Extended(db: Db, profiles: Profiles, providers: Providers) {
    && (forall p :: p in db.profiles ==> p in profiles && profiles[p] == db.profiles[p])
    && (forall d :: d in db.providers ==> d in providers && providers[d] == db.providers[d])
  }

  /** Something was only added for the identities seen. */
  ghost predicate AddedFor(db: Db, newPids: map<string, string>, profiles: Profiles, providers: Providers,
        seen: set<string>) {
    && (forall p :: p in profiles && p !in db.profiles ==>
          profiles[p].legacy.Some? && profiles[p].legacy.value in seen && profiles[p].legacy.value in newPids
          && p == newPids[profiles[p].legacy.value])
    && (forall d :: d in providers && d !in db.providers ==> d in seen)
  }

  ghost predicate Counted(db: Db, profiles: Profiles, providers: Providers, created: nat) {
    |profiles| == |db.profiles| + created && |providers| == |db.providers| + created
  }

  /** Nothing was added where nothing was missing. */
  ghost predicate Quiet(db: Db, profiles: Profiles, providers: Providers, created: nat, seen: set<string>) {
    AllHeld(db.profiles, db.providers, seen) ==> created == 0 && profiles == db.profiles && providers == db.providers
  }

  ghost predicate Grown(
    db: Db, newPids: map<string, string>, profiles: Profiles, providers: Providers, created: nat, seen: set<string>)
  {
    && UniqueLegacy(profiles) && ProvidersOk(providers, profiles) && AllHeld(profiles, providers, seen)
    && Extended(db, profiles, providers) && AddedFor(db, newPids, profiles, providers, seen)
    && Counted(db, profiles, providers, created) && Quiet(db, profiles, providers, created, seen)
  }

  /** Identifiers are drawn anew, one for each identity. */
  ghost predicate FreshPids(db: Db, newPids: map<string, string>) {
    && Identities(db.links) <= newPids.Keys && (forall d :: d in newPids ==> newPids[d] !in db.profiles)
    && forall c, d :: c in newPids && d in newPids && newPids[c] == newPids[d] ==> c == d
  }

  lemma NotSeenYet(db: Db, newPids: map<string, string>, profiles: Profiles, providers: Providers, created: nat,
        seen: set<string>, d: string)
    requires Grown(db, newPids, profiles, providers, created, seen) && d !in seen
    ensures forall p :: p in profiles && profiles[p].legacy == Some(d) ==> p in db.profiles
    ensures d in providers ==> d in db.providers && providers[d] == db.providers[d]
  {
    hide UniqueLegacy, ProvidersOk, AllHeld, Counted, Quiet;
  }

  /** An identity is held at the start exactly when the checks find nothing amiss. */
  lemma HeldAsFound(db: Db, newPids: map<string, string>, profiles: Profiles, providers: Providers, created: nat,
        seen: set<string>,
                    d: string, found: Option<string>)
    requires Grown(db, newPids, profiles, providers, created, seen) && d !in seen
    requires found.Some? ==> IsProfileOf(profiles, found.value, d)
    requires found.None? ==> forall p :: p in profiles ==> !IsProfileOf(profiles, p, d)
    ensures Held(db.profiles, db.providers, d) <==>
              && found.Some? && !profiles[found.value].disabled && d in providers
              && providers[d] == Provider(found.value, false)
    ensures MayHold(db.profiles, db.providers, d) <==>
              Held(db.profiles, db.providers, d) || (found.None? && d !in providers)
  {
    NotSeenYet(db, newPids, profiles, providers, created, seen, d);
    assert UniqueLegacy(profiles) && Extended(db, profiles, providers);
    hide Grown, ProvidersOk, AllHeld, Counted, Quiet, AddedFor;
    if Held(db.profiles, db.providers, d) {
      assert IsProfileOf(profiles, db.providers[d].pid, d);
    }
    if found.Some? {
      assert IsProfileOf(db.profiles, found.value, d);
    }
    if p :| p in db.profiles && IsProfileOf(db.profiles, p, d) {
      assert IsProfileOf(profiles, p, d);
    }
  }

  lemma GrownSame(db: Db, newPids: map<string, string>, profiles: Profiles, providers: Providers, created: nat,
        seen: set<string>, d: string)
    requires Grown(db, newPids, profiles, providers, created, seen) && Held(db.profiles, db.providers, d)
    ensures Grown(db, newPids, profiles, providers, created, seen + {d})
  {
    hide UniqueLegacy, ProvidersOk, Counted;
    assert forall c :: c in seen ==> c in seen + {d};
  }

  lemma GrownNew(db: Db, newPids: map<string, string>, profiles: Profiles, providers: Providers, created: nat,
        seen: set<string>, d: string)
    requires Grown(db, newPids, profiles, providers, created, seen) && FreshPids(db, newPids) && d in newPids
    requires d !in seen
    requires d !in providers && forall p :: p in profiles ==> !IsProfileOf(profiles, p, d)
    ensures newPids[d] !in profiles
    ensures Grown(db, newPids, profiles[newPids[d] := Profile(Some(d), false)],
                  providers[d := Provider(newPids[d], false)], created + 1, seen + {d})
  {
    hide UniqueLegacy, ProvidersOk, AllHeld, Extended, AddedFor, Counted, Quiet, FreshPids, IsProfileOf;
    NewPidUnused(db, newPids, profiles, providers, seen, d);
    NewIsUnique(profiles, providers, newPids[d], d);
    NewIsHeld(profiles, providers, newPids[d], d, seen);
    NewIsAdded(db, newPids, profiles, providers, created, seen, d);
    NewIsCounted(db, newPids, profiles, providers, created, seen, d);
  }

  lemma NewIsCounted(db: Db, newPids: map<string, string>, profiles: Profiles, providers: Providers, created: nat,
        seen: set<string>, d: string)
    requires Extended(db, profiles, providers) && Counted(db, profiles, providers, created)
    requires d in newPids && d !in providers && newPids[d] !in profiles
    ensures Counted(db, profiles[newPids[d] := Profile(Some(d), false)], providers[d := Provider(newPids[d], false)],
                    created + 1)
    ensures Quiet(db, profiles[newPids[d] := Profile(Some(d), false)], providers[d := Provider(newPids[d], false)],
                  created + 1, seen + {d})
  {
    assert d in seen + {d} && !Held(db.profiles, db.providers, d);
  }

  lemma NewIsUnique(profiles: Profiles, providers: Providers, pid: string, d: string)
    requires UniqueLegacy(profiles) && ProvidersOk(providers, profiles) && pid !in profiles && d !in providers
    requires forall p :: p in profiles ==> !IsProfileOf(profiles, p, d)
    ensures UniqueLegacy(profiles[pid := Profile(Some(d), false)])
    ensures ProvidersOk(providers[d := Provider(pid, false)], profiles[pid := Profile(Some(d), false)])
  {
  }

  lemma NewIsHeld(profiles: Profiles, providers: Providers, pid: string, d: string, seen: set<string>)
    requires AllHeld(profiles, providers, seen) && pid !in profiles && d !in providers
    ensures AllHeld(profiles[pid := Profile(Some(d), false)], providers[d := Provider(pid, false)], seen + {d})
  {
  }

  lemma NewIsAdded(db: Db, newPids: map<string, string>, profiles: Profiles, providers: Providers, created: nat,
        seen: set<string>, d: string)
    requires Extended(db, profiles, providers) && AddedFor(db, newPids, profiles, providers, seen)
    requires d in newPids && d !in providers && newPids[d] !in profiles
    ensures Extended(db, profiles[newPids[d] := Profile(Some(d), false)], providers[d := Provider(newPids[d], false)])
    ensures AddedFor(db, newPids, profiles[newPids[d] := Profile(Some(d), false)],
                     providers[d := Provider(newPids[d], false)], seen + {d})
  {
  }

  lemma GrownNothing(db: Db, newPids: map<string, string>)
    requires Schema(db) && FreshPids(db, newPids)
    ensures Grown(db, newPids, db.profiles, db.providers, 0, {}) && Identities(db.links) <= newPids.Keys
  {
  }

  lemma NewPidUnused(db: Db, newPids: map<string, string>, profiles: Profiles, providers: Providers,
        seen: set<string>, d: string)
    requires AddedFor(db, newPids, profiles, providers, seen) && FreshPids(db, newPids) && d in newPids && d !in seen
    ensures newPids[d] !in profiles
  {
  }

  /** One identity: held already, given a new profile, or refused. */
  method HoldOne(profiles: Profiles, providers: Providers, d: string, pid: string)
    returns (r: Result<(Profiles, Providers, nat), MigrationError>, found: Option<string>)
    ensures found.Some? ==> IsProfileOf(profiles, found.value, d)
    ensures found.None? ==> forall p :: p in profiles ==> !IsProfileOf(profiles, p, d)
    ensures found.None? ==> (r.Ok? <==> d !in providers)
    ensures found.None? && r.Ok? ==>
              r.value == (profiles[pid := Profile(Some(d), false)], providers[d := Provider(pid, false)], 1)
    ensures found.Some? ==>
              (r.Ok? <==>
                 !profiles[found.value].disabled && d in providers && providers[d] == Provider(found.value, false))
    ensures found.Some? && r.Ok? ==> r.value == (profiles, providers, 0)
  {
    found := FindProfile(profiles, d);
    if found.None? {
      if d in providers {
        r := Err(ProviderConflict);
      } else {
        r := Ok((profiles[pid := Profile(Some(d), false)], providers[d := Provider(pid, false)], 1));
      }
    } else if profiles[found.value].disabled {
      r := Err(ProfileDisabled);
    } else if d !in providers {
      r := Err(ProviderMissing);
    } else if providers[d].pid != found.value || providers[d].revoked {
      r := Err(ProviderConflict);
    } else {
      r := Ok((profiles, providers, 0));
    }
  }

  lemma HoldStep(db: Db, newPids: map<string, string>, profiles: Profiles, providers: Providers, created: nat,
        seen: set<string>, d: string, found: Option<string>)
    requires Grown(db, newPids, profiles, providers, created, seen) && FreshPids(db, newPids)
    requires d in Identities(db.links) && d in newPids && d !in seen
    requires found.Some? ==> IsProfileOf(profiles, found.value, d)
    requires found.None? ==> forall p :: p in profiles ==> !IsProfileOf(profiles, p, d)
    ensures found.None? && d !in providers ==>
              Grown(db, newPids, profiles[newPids[d] := Profile(Some(d), false)],
                    providers[d := Provider(newPids[d], false)], created + 1, seen + {d})
    ensures found.Some? && !profiles[found.value].disabled && d in providers
            && providers[d] == Provider(found.value, false) ==>
              Grown(db, newPids, profiles, providers, created, seen + {d})
    ensures MayHold(db.profiles, db.providers, d) <==>
            if found.None? then d !in providers
            else !profiles[found.value].disabled && d in providers && providers[d] == Provider(found.value, false)
  {
    hide Grown, Held, FreshPids, AllHeld, MayHold;
    HeldAsFound(db, newPids, profiles, providers, created, seen, d, found);
    if Held(db.profiles, db.providers, d) {
      GrownSame(db, newPids, profiles, providers, created, seen, d);
    } else if found.None? && d !in providers {
      GrownNew(db, newPids, profiles, providers, created, seen, d);
    }
  }

  /** One step of the loop over identities. */
  method HoldNext(db: Db, newPids: map<string, string>, profiles: Profiles, providers: Providers, created: nat,
        ghost seen: set<string>, d: string)
    returns (r: Result<(Profiles, Providers, nat), MigrationError>)
    requires Grown(db, newPids, profiles, providers, created, seen) && FreshPids(db, newPids)
    requires d in Identities(db.links) && d in newPids && d !in seen
    ensures r.Ok? ==> Grown(db, newPids, r.value.0, r.value.1, r.value.2, seen + {d})
    ensures r.Ok? <==> MayHold(db.profiles, db.providers, d)
  {
    hide Grown, FreshPids, AllHeld, Identities, IsProfileOf, MayHold;
    var held, found := HoldOne(profiles, providers, d, newPids[d]);
    HoldStep(db, newPids, profiles, providers, created, seen, d, found);
    if held.Err? {
      return Err(held.error);
    }
    return Ok((held.value.0, held.value.1, created + held.value.2));
  }

  /** Every identity finds a profile, or gets a new one with its provider. */
  method HoldIdentities(db: Db, newPids: map<string, string>)
    returns (r: Result<(Profiles, Providers, nat), MigrationError>)
    requires Schema(db) && FreshPids(db, newPids)
    ensures r.Ok? <==> AllMayHold(db.profiles, db.providers, Identities(db.links))
    ensures r.Ok? ==> Grown(db, newPids, r.value.0, r.value.1, r.value.2, Identities(db.links))
  {
    hide Schema, FreshPids, Identities, Grown, MayHold;
    r := Ok((db.profiles, db.providers, 0));
    var dids := Identities(db.links);
    var todo := dids;
    ghost var seen: set<string> := {};
    GrownNothing(db, newPids);
    while todo != {}
      invariant seen + todo == dids && seen !! todo && dids <= newPids.Keys
      invariant r.Ok? && Grown(db, newPids, r.value.0, r.value.1, r.value.2, seen)
      invariant AllMayHold(db.profiles, db.providers, seen)
    {
      var d :| d in todo;
      r := HoldNext(db, newPids, r.value.0, r.value.1, r.value.2, seen, d);
      if r.Err? {
        return;
      }
      todo, seen := todo - {d}, seen + {d};
    }
    assert seen == dids;
  }

  // ------------------------------------------------------------------ bindings

  ghost predicate BindingsExtended(was: Bindings, bindings: Bindings) {
    forall k :: k in was ==> k in bindings && bindings[k] == was[k]
  }

  /** A new binding is for a link seen, and starts at the first version. */
  ghost predicate BindingsAddedFor(links: Links, was: Bindings, bindings: Bindings, seen: set<int>) {
    forall k :: k in bindings && k !in was ==>
      && bindings[k].legacy.Some? && bindings[k].legacy.value in seen && bindings[k].legacy.value in links
      && bindings[k].version == 1
  }

  ghost predicate BindingsIndexed(profiles: Profiles, bindings: Bindings) {
    UniqueSource(bindings) && UniqueActive(bindings) && forall k :: k in bindings ==> k.pid in profiles && k.aid > 0
  }

  ghost predicate BindingsQuiet(db: Db, providers: Providers, bindings: Bindings, created: nat, seen: set<int>) {
    && |bindings| == |db.bindings| + created
    && (AllBound(db.links, providers, db.bindings, seen) ==> created == 0 && bindings == db.bindings)
  }

  ghost predicate BindingsGrown(db: Db, profiles: Profiles, providers: Providers, bindings: Bindings, created: nat,
        seen: set<int>) {
    && AllBound(db.links, providers, bindings, seen) && BindingsExtended(db.bindings, bindings)
    && BindingsAddedFor(db.links, db.bindings, bindings, seen) && BindingsIndexed(profiles, bindings)
    && BindingsQuiet(db, providers, bindings, created, seen)
  }

  function Expected(links: Links, l: int): Binding
    requires l in links
  {
    Binding(Some(l), links[l].linkedAt, links[l].revokedAt, 1)
  }

  /** The place of a link's binding, or the link itself, has been taken. */
  predicate Taken(bindings: Bindings, k: Key, l: int) {
    k in bindings || exists j :: j in bindings && bindings[j].legacy == Some(l)
  }

  predicate HasHolder(bindings: Bindings, aid: int) {
    exists k :: k in bindings && k.aid == aid && bindings[k].revokedAt.None?
  }

  lemma BoundAlready(db: Db, profiles: Profiles, providers: Providers, bindings: Bindings, created: nat,
        seen: set<int>, l: int)
    requires BindingsGrown(db, profiles, providers, bindings, created, seen) && l in db.links && l !in seen
    ensures Bound(providers, db.bindings, l, db.links[l]) <==> Bound(providers, bindings, l, db.links[l])
    ensures Bound(providers, bindings, l, db.links[l]) ==>
              BindingsGrown(db, profiles, providers, bindings, created, seen + {l})
  {
    hide AllBound, BindingsIndexed;
    if Bound(providers, bindings, l, db.links[l]) {
      BoundMore(db.links, providers, bindings, seen, l);
      BoundMore(db.links, providers, db.bindings, seen, l);
    }
  }

  lemma BoundMore(links: Links, providers: Providers, bindings: Bindings, seen: set<int>, l: int)
    requires l in links
    ensures AllBound(links, providers, bindings, seen + {l}) <==>
              AllBound(links, providers, bindings, seen) && Bound(providers, bindings, l, links[l])
  {
    assert l in seen + {l} && forall m :: m in seen ==> m in seen + {l};
  }

  lemma BoundNew(db: Db, profiles: Profiles, providers: Providers, bindings: Bindings, created: nat, seen: set<int>,
        l: int, k: Key)
    requires BindingsGrown(db, profiles, providers, bindings, created, seen) && l in db.links && l !in seen
    requires db.links[l].did in providers && k == Key(providers[db.links[l].did].pid, db.links[l].aid)
    requires k.pid in profiles && k.aid > 0
    requires !Taken(bindings, k, l) && !(db.links[l].revokedAt.None? && HasHolder(bindings, k.aid))
    ensures BindingsGrown(db, profiles, providers, bindings[k := Expected(db.links, l)], created + 1, seen + {l})
  {
    hide AllBound, BindingsExtended, BindingsAddedFor, BindingsIndexed, BindingsQuiet;
    var next := bindings[k := Expected(db.links, l)];
    NewIndexed(profiles, bindings, k, Expected(db.links, l));
    NewBindingAdded(db.links, db.bindings, bindings, seen, l, k);
    BoundStillAll(db.links, providers, bindings, next, seen);
    BoundMore(db.links, providers, next, seen, l);
    NewBindingCounted(db, providers, bindings, created, seen, l, k);
  }

  lemma NewBindingAdded(links: Links, was: Bindings, bindings: Bindings, seen: set<int>, l: int, k: Key)
    requires BindingsExtended(was, bindings) && BindingsAddedFor(links, was, bindings, seen) && l in links
    requires k !in bindings
    ensures BindingsExtended(was, bindings[k := Expected(links, l)])
    ensures BindingsExtended(bindings, bindings[k := Expected(links, l)])
    ensures BindingsAddedFor(links, was, bindings[k := Expected(links, l)], seen + {l})
  {
  }

  lemma NewBindingCounted(db: Db, providers: Providers, bindings: Bindings, created: nat, seen: set<int>, l: int,
        k: Key)
    requires BindingsExtended(db.bindings, bindings) && BindingsQuiet(db, providers, bindings, created, seen)
    requires l in db.links && db.links[l].did in providers && k == Key(providers[db.links[l].did].pid, db.links[l].aid)
    requires k !in bindings
    ensures BindingsQuiet(db, providers, bindings[k := Expected(db.links, l)], created + 1, seen + {l})
  {
    BoundMore(db.links, providers, db.bindings, seen, l);
    hide AllBound;
  }

  lemma BoundStillAll(links: Links, providers: Providers, was: Bindings, bindings: Bindings, seen: set<int>)
    requires AllBound(links, providers, was, seen) && BindingsExtended(was, bindings)
    ensures AllBound(links, providers, bindings, seen)
  {
  }

  lemma NewIndexed(profiles: Profiles, bindings: Bindings, k: Key, b: Binding)
    requires BindingsIndexed(profiles, bindings) && k !in bindings && k.pid in profiles && k.aid > 0
    requires forall j :: j in bindings ==> bindings[j].legacy != b.legacy
    requires b.revokedAt.None? ==> forall j :: j in bindings && j.aid == k.aid ==> bindings[j].revokedAt.Some?
    ensures BindingsIndexed(profiles, bindings[k := b])
  {
  }

  lemma HeldLink(links: Links, profiles: Profiles, providers: Providers, l: int)
    requires LinksHeld(links, profiles, providers) && l in links
    ensures links[l].did in providers && providers[links[l].did].pid in profiles && links[l].aid > 0
  {
    hide LinksValid;
  }

  lemma MayBindCases(links: Links, providers: Providers, bindings: Bindings, l: int)
    requires l in links && links[l].did in providers
    ensures var k := Key(providers[links[l].did].pid, links[l].aid);
            && (MayBind(providers, bindings, l, links[l]) <==>
                  if Taken(bindings, k, l) then k in bindings && bindings[k].(version := 1) == Expected(links, l)
                  else !(links[l].revokedAt.None? && HasHolder(bindings, k.aid)))
            && (Bound(providers, bindings, l, links[l]) <==>
                  k in bindings && bindings[k].(version := 1) == Expected(links, l))
            && (Bound(providers, bindings, l, links[l]) ==> Taken(bindings, k, l))
  {
  }

  /** The rows a migration works through: valid, and every identity held. */
  ghost predicate LinksHeld(links: Links, profiles: Profiles, providers: Providers) {
    LinksValid(links) && forall l :: l in links ==> Held(profiles, providers, links[l].did) && links[l].aid > 0
  }

  /** What was added for another link is in nobody's way. */
  lemma AddedElsewhere(db: Db, profiles: Profiles, providers: Providers, bindings: Bindings, created: nat,
        seen: set<int>, l: int, k: Key)
    requires BindingsGrown(db, profiles, providers, bindings, created, seen) && l in db.links && l !in seen
    requires LinksHeld(db.links, profiles, providers) && k in bindings && k !in db.bindings
    ensures k != Key(providers[db.links[l].did].pid, db.links[l].aid) && bindings[k].legacy != Some(l)
    ensures k.aid == db.links[l].aid && db.links[l].revokedAt.None? ==> bindings[k].revokedAt.Some?
  {
    var m := bindings[k].legacy.value;
    assert Bound(providers, bindings, m, db.links[m]);
    assert UniqueSource(bindings) && k == Key(providers[db.links[m].did].pid, db.links[m].aid);
    assert PairsUniqueIn(db.links, db.links.Keys) && ActiveOnceIn(db.links, db.links.Keys);
    assert Held(profiles, providers, db.links[m].did) && Held(profiles, providers, db.links[l].did);
    assert m in db.links.Keys && l in db.links.Keys;
  }

  /** A link may be bound now exactly if it could be at the start. */
  lemma MayBindStill(db: Db, profiles: Profiles, providers: Providers, bindings: Bindings, created: nat,
        seen: set<int>, l: int)
    requires BindingsGrown(db, profiles, providers, bindings, created, seen) && l in db.links && l !in seen
    requires LinksHeld(db.links, profiles, providers)
    ensures MayBind(providers, bindings, l, db.links[l]) <==> MayBind(providers, db.bindings, l, db.links[l])
  {
    BoundAlready(db, profiles, providers, bindings, created, seen, l);
    assert BindingsExtended(db.bindings, bindings);
    forall k | k in bindings && k !in db.bindings
      ensures k != Key(providers[db.links[l].did].pid, db.links[l].aid) && bindings[k].legacy != Some(l)
      ensures k.aid == db.links[l].aid && db.links[l].revokedAt.None? ==> bindings[k].revokedAt.Some?
    {
      AddedElsewhere(db, profiles, providers, bindings, created, seen, l, k);
    }
    hide BindingsGrown, LinksHeld, Bound;
  }

  /** One step of the loop over links. */
  method BindNext(db: Db, profiles: Profiles, providers: Providers, bindings: Bindings, created: nat,
        ghost seen: set<int>, l: int)
    returns (r: Result<(Bindings, nat), MigrationError>)
    requires BindingsGrown(db, profiles, providers, bindings, created, seen) && l in db.links && l !in seen
    requires LinksHeld(db.links, profiles, providers)
    ensures r.Ok? ==> BindingsGrown(db, profiles, providers, r.value.0, r.value.1, seen + {l})
    ensures r.Ok? <==> MayBind(providers, db.bindings, l, db.links[l])
  {
    hide *;
    HeldLink(db.links, profiles, providers, l);
    BoundAlready(db, profiles, providers, bindings, created, seen, l);
    MayBindStill(db, profiles, providers, bindings, created, seen, l);
    MayBindCases(db.links, providers, bindings, l);
    var link := db.links[l];
    var key := Key(providers[link.did].pid, link.aid);
    if Taken(bindings, key, l) {
      if !(key in bindings && bindings[key].(version := 1) == Expected(db.links, l)) {
        return Err(BindingDiffers);
      }
      return Ok((bindings, created));
    }
    if link.revokedAt.None? && HasHolder(bindings, link.aid) {
      return Err(SqlRefused);
    }
    BoundNew(db, profiles, providers, bindings, created, seen, l, key);
    return Ok((bindings[key := Expected(db.links, l)], created + 1));
  }

  method BindLinks(db: Db, profiles: Profiles, providers: Providers)
    returns (r: Result<(Bindings, nat), MigrationError>)
    requires BindingsGrown(db, profiles, providers, db.bindings, 0, {})
    requires LinksHeld(db.links, profiles, providers)
    ensures r.Ok? ==> BindingsGrown(db, profiles, providers, r.value.0, r.value.1, db.links.Keys)
    ensures r.Ok? <==> AllMayBind(db.links, providers, db.bindings)
  {
    hide BindingsGrown, LinksHeld, MayBind;
    r := Ok((db.bindings, 0));
    var todo := db.links.Keys;
    ghost var seen: set<int> := {};
    while todo != {}
      invariant seen + todo == db.links.Keys && seen !! todo
      invariant r.Ok? && BindingsGrown(db, profiles, providers, r.value.0, r.value.1, seen)
      invariant forall l :: l in seen ==> MayBind(providers, db.bindings, l, db.links[l])
    {
      EmptyOrMember(todo);
      var l :| l in todo;
      r := BindNext(db, profiles, providers, r.value.0, r.value.1, seen, l);
      if r.Err? {
        return;
      }
      todo, seen := todo - {l}, seen + {l};
    }
    assert seen == db.links.Keys;
  }

  // ------------------------------------------------------------------ backfill

  function ActiveLinks(links: Links): set<int> {
    set l | l in links && links[l].revokedAt.None?
  }

  function RevokedLinks(links: Links): set<int> {
    set l | l in links && links[l].revokedAt.Some?
  }

  /** What a migration may add, and that it adds no more than it reports. */
  ghost predicate Added(a: Db, b: Db, newPids: map<string, string>, s: Summary) {
    && b == a.(profiles := b.profiles, providers := b.providers, bindings := b.bindings)
    && Extended(a, b.profiles, b.providers) && AddedFor(a, newPids, b.profiles, b.providers, Identities(a.links))
    && BindingsExtended(a.bindings, b.bindings)
    && BindingsAddedFor(a.links, a.bindings, b.bindings, a.links.Keys)
    && |b.profiles| == |a.profiles| + s.profilesCreated && |b.providers| == |a.providers| + s.providersCreated
    && |b.bindings| == |a.bindings| + s.bindingsCreated
  }

  lemma LinksAreHeld(db: Db, newPids: map<string, string>, profiles: Profiles, providers: Providers, created: nat)
    requires Grown(db, newPids, profiles, providers, created, Identities(db.links)) && LinksValid(db.links)
    requires Schema(db)
    ensures LinksHeld(db.links, profiles, providers)
    ensures BindingsGrown(db, profiles, providers, db.bindings, 0, {})
  {
    assert AllHeld(profiles, providers, Identities(db.links)) && ValidIn(db.links, db.links.Keys);
    BindingsNothing(db, newPids, profiles, providers, created);
    hide Held, Grown, Schema, BindingsGrown, LinksValid;
    forall l | l in db.links ensures Held(profiles, providers, db.links[l].did) && db.links[l].aid > 0 {
      assert db.links[l].did in Identities(db.links) && RowValid(l, db.links[l]);
    }
  }

  /** A profile made by the migration held nothing before it. */
  lemma NewProfileIsUnbound(db: Db, newPids: map<string, string>, profiles: Profiles, providers: Providers,
        created: nat, d: string, aid: int)
    requires Grown(db, newPids, profiles, providers, created, Identities(db.links)) && Schema(db)
    requires d in Identities(db.links) && MayHold(db.profiles, db.providers, d)
    ensures d in providers && (d in db.providers ==> providers[d] == db.providers[d])
    ensures d !in db.providers ==> Key(providers[d].pid, aid) !in db.bindings
  {
    assert Held(profiles, providers, d) && Extended(db, profiles, providers);
    hide Grown, UniqueLegacy, ProvidersOk, UniqueSource, UniqueActive;
    assert providers[d].pid in db.profiles ==> IsProfileOf(db.profiles, providers[d].pid, d);
  }

  /** Whether a link may be bound does not depend on the profiles that were added. */
  lemma MayBindFromStart(db: Db, newPids: map<string, string>, profiles: Profiles, providers: Providers, created: nat)
    requires Grown(db, newPids, profiles, providers, created, Identities(db.links)) && Schema(db)
    requires AllMayHold(db.profiles, db.providers, Identities(db.links))
    ensures AllMayBind(db.links, providers, db.bindings) <==> AllMayBind(db.links, db.providers, db.bindings)
  {
    forall l | l in db.links
      ensures MayBind(providers, db.bindings, l, db.links[l]) <==> MayBind(db.providers, db.bindings, l, db.links[l])
    {
      assert db.links[l].did in Identities(db.links);
      assert MayHold(db.profiles, db.providers, db.links[l].did);
      hide *;
      NewProfileIsUnbound(db, newPids, profiles, providers, created, db.links[l].did, db.links[l].aid);
      SamePlace(db.links, db.providers, providers, db.bindings, l);
    }
    hide MayBind, Grown, Schema;
  }

  lemma SamePlace(links: Links, was: Providers, providers: Providers, bindings: Bindings, l: int)
    requires l in links && links[l].did in providers
    requires links[l].did in was ==> providers[links[l].did] == was[links[l].did]
    requires links[l].did !in was ==> Key(providers[links[l].did].pid, links[l].aid) !in bindings
    ensures MayBind(providers, bindings, l, links[l]) <==> MayBind(was, bindings, l, links[l])
  {
  }

  /** Whatever is bound was asked for by a link. */
  lemma SourcedFromStart(db: Db, profiles: Profiles, providers: Providers, bindings: Bindings, created: nat)
    requires BindingsGrown(db, profiles, providers, bindings, created, db.links.Keys)
    ensures Sourced(db.links, bindings) <==> Sourced(db.links, db.bindings)
  {
    hide AllBound, BindingsIndexed, BindingsQuiet;
  }

  lemma BindingsNothing(db: Db, newPids: map<string, string>, profiles: Profiles, providers: Providers, created: nat)
    requires Grown(db, newPids, profiles, providers, created, Identities(db.links)) && Schema(db)
    ensures BindingsGrown(db, profiles, providers, db.bindings, 0, {})
  {
    hide AllHeld, UniqueLegacy, ProvidersOk, AddedFor, Counted, Quiet, UniqueSource, UniqueActive;
  }

  /** The whole migration in one transaction. It succeeds exactly where the links are
      valid and nothing that is there already contradicts them: then nothing is left
      to do, and where there was nothing to do nothing changes. Otherwise nothing was
      done. */
  method Backfill(conn: Connection, newPids: map<string, string>) returns (r: Result<Summary, MigrationError>)
    requires Schema(conn.db) && FreshPids(conn.db, newPids)
    modifies conn
    ensures r.Err? ==> conn.db == old(conn.db)
    ensures old(conn.begun).Some? ==> r == Err(RequiresOwnTransaction)
    ensures r.Ok? <==> old(conn.begun).None? && Migratable(old(conn.db))
    ensures r.Ok? ==>
              && Schema(conn.db) && Backfilled(conn.db) && Added(old(conn.db), conn.db, newPids, r.value)
              && conn.begun.None?
    ensures r.Ok? <==> old(conn.begun).None? && CanMigrate(old(conn.db))
    ensures r.Ok? ==>
              && AllReady(conn.db)
              && forall k :: k in conn.db.bindings && k !in old(conn.db).bindings ==> conn.db.bindings[k].version == 1
    ensures r.Ok? ==>
              r.value.activeAccounts == |set l | l in conn.db.links && conn.db.links[l].revokedAt.None?|
    ensures r.Ok? ==> r.value.legacyLinks == |conn.db.links| && r.value.legacyProfiles == |Identities(conn.db.links)|
    ensures r.Ok? ==> r.value.activeAccounts + r.value.revokedLinks == r.value.legacyLinks
    ensures old(conn.begun).None? && Backfilled(old(conn.db)) ==>
              && r.Ok? && conn.db == old(conn.db)
              && r.value.profilesCreated == r.value.providersCreated == r.value.bindingsCreated == 0
  {
    if Backfilled(conn.db) {
      BackfilledIsMigratable(conn.db);
    }
    MigratableCan(conn.db);
    hide Backfilled, Migratable, Schema, FreshPids, Added, CanMigrate, AllReady;
    var ok := conn.Begin();
    if !ok {
      return Err(RequiresOwnTransaction);
    }
    var migrated := Migrate(conn.db, newPids);
    if migrated.Err? {
      conn.Rollback();
      return Err(migrated.error);
    }
    AddedVersions(conn.db, migrated.value.0, newPids, migrated.value.1);
    conn.db := migrated.value.0;
    BackfilledIsReady(conn.db);
    conn.Commit();
    return Ok(migrated.value.1);
  }

  lemma AddedVersions(a: Db, b: Db, newPids: map<string, string>, s: Summary)
    requires Added(a, b, newPids, s)
    ensures b.links == a.links && forall k :: k in b.bindings && k !in a.bindings ==> b.bindings[k].version == 1
  {
    hide Extended, AddedFor, BindingsExtended;
  }

  lemma CountsAddUp(links: Links)
    ensures |ActiveLinks(links)| + |RevokedLinks(links)| == |links|
    ensures ActiveLinks(links) == set l | l in links && links[l].revokedAt.None?
  {
    assert forall l :: l in links ==> l in ActiveLinks(links) || l in RevokedLinks(links);
    assert forall l :: l in ActiveLinks(links) + RevokedLinks(links) ==> l in links;
    assert ActiveLinks(links) + RevokedLinks(links) == links.Keys;
    assert |links.Keys| == |links|;
  }

  method Migrate(db: Db, newPids: map<string, string>) returns (r: Result<(Db, Summary), MigrationError>)
    requires Schema(db) && FreshPids(db, newPids)
    ensures r.Ok? <==> Migratable(db)
    ensures r.Ok? ==> Schema(r.value.0) && Backfilled(r.value.0) && Added(db, r.value.0, newPids, r.value.1)
    ensures r.Ok? ==> r.value.1.legacyLinks == |db.links| && r.value.1.legacyProfiles == |Identities(db.links)|
    ensures r.Ok? ==> r.value.1.activeAccounts + r.value.1.revokedLinks == |db.links|
    ensures r.Ok? ==> r.value.1.activeAccounts == |set l | l in db.links && db.links[l].revokedAt.None?|
    ensures r.Ok? && Backfilled(db) ==>
              && r.value.0 == db
              && r.value.1.profilesCreated == r.value.1.providersCreated == r.value.1.bindingsCreated == 0
  {
    hide *;
    WhatItTakes(db);
    var checked := SourceLinks(db.links);
    if checked.Err? {
      return Err(checked.error);
    }
    var held := HoldIdentities(db, newPids);
    if held.Err? {
      return Err(held.error);
    }
    var (profiles, providers, created) := held.value;
    LinksAreHeld(db, newPids, profiles, providers, created);
    MayBindFromStart(db, newPids, profiles, providers, created);
    var bound := BindLinks(db, profiles, providers);
    if bound.Err? {
      return Err(bound.error);
    }
    SourcedFromStart(db, profiles, providers, bound.value.0, bound.value.1);
    if !Sourced(db.links, bound.value.0) {
      return Err(BindingSourceMissing);
    }
    CountsAddUp(db.links);
    var s := Summary(created, created, bound.value.1, |db.links|, |Identities(db.links)|, |ActiveLinks(db.links)|,
                     |RevokedLinks(db.links)|);
    var after := db.(profiles := profiles, providers := providers, bindings := bound.value.0);
    Migrated(db, newPids, after, s);
    MigratedAgain(db, newPids, after, s);
    return Ok((after, s));
  }

  lemma WhatItTakes(db: Db)
    ensures Migratable(db) <==>
              && LinksValid(db.links) && AllMayHold(db.profiles, db.providers, Identities(db.links))
              && AllMayBind(db.links, db.providers, db.bindings) && Sourced(db.links, db.bindings)
  {
    hide LinksValid, AllMayHold, AllMayBind, Sourced, Identities;
  }

  lemma NothingLeft(db: Db)
    ensures Backfilled(db) ==>
              LinksValid(db.links) && AllHeld(db.profiles, db.providers, Identities(db.links))
              && AllBound(db.links, db.providers, db.bindings, db.links.Keys) && Sourced(db.links, db.bindings)
  {
    hide LinksValid, AllHeld, AllBound, Sourced, Identities;
  }

  lemma QuietMeans(db: Db, newPids: map<string, string>, profiles: Profiles, providers: Providers, created: nat)
    requires Grown(db, newPids, profiles, providers, created, Identities(db.links))
    ensures AllHeld(db.profiles, db.providers, Identities(db.links)) ==>
              created == 0 && profiles == db.profiles && providers == db.providers
  {
    hide UniqueLegacy, ProvidersOk, AllHeld, Extended, AddedFor, Counted;
  }

  lemma QuietBindings(db: Db, profiles: Profiles, providers: Providers, bindings: Bindings, created: nat)
    requires BindingsGrown(db, profiles, providers, bindings, created, db.links.Keys)
    ensures AllBound(db.links, providers, db.bindings, db.links.Keys) ==> created == 0 && bindings == db.bindings
  {
    hide AllBound, BindingsExtended, BindingsAddedFor, BindingsIndexed;
  }

  lemma Migrated(db: Db, newPids: map<string, string>, after: Db, s: Summary)
    requires Grown(db, newPids, after.profiles, after.providers, s.profilesCreated, Identities(db.links))
    requires BindingsGrown(db, after.profiles, after.providers, after.bindings, s.bindingsCreated, db.links.Keys)
    requires LinksValid(db.links) && Sourced(db.links, after.bindings) && s.providersCreated == s.profilesCreated
    requires after == db.(profiles := after.profiles, providers := after.providers, bindings := after.bindings)
    ensures Schema(after) && Backfilled(after) && Added(db, after, newPids, s)
  {
    assert after.links == db.links;
    hide LinksValid, AllHeld, AllBound, Sourced, Identities, UniqueLegacy, ProvidersOk, Extended, AddedFor,
         BindingsExtended, BindingsAddedFor, UniqueSource, UniqueActive, Quiet;
  }

  lemma MigratedAgain(db: Db, newPids: map<string, string>, after: Db, s: Summary)
    requires Grown(db, newPids, after.profiles, after.providers, s.profilesCreated, Identities(db.links))
    requires BindingsGrown(db, after.profiles, after.providers, after.bindings, s.bindingsCreated, db.links.Keys)
    requires s.providersCreated == s.profilesCreated
    requires after == db.(profiles := after.profiles, providers := after.providers, bindings := after.bindings)
    ensures Backfilled(db) ==> after == db && s.profilesCreated == s.providersCreated == s.bindingsCreated == 0
  {
    hide *;
    NothingLeft(db);
    QuietMeans(db, newPids, after.profiles, after.providers, s.profilesCreated);
    if Backfilled(db) {
      assert after.providers == db.providers;
      QuietBindings(db, after.profiles, after.providers, after.bindings, s.bindingsCreated);
    }
  }
}
