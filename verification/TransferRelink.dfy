/** Following a player to the account a character transfer gave them: links on old
    accounts are moved, retired or refused by a plan, each in a transaction of its
    own. */
module TransferRelink {
  import opened Wrappers
  import opened PortalTables
  import opened PortalIdentity
  import opened PortalSteps

  /** Old account to the new ones it was transferred to. */
  type Pairs = map<int, set<int>>

  datatype Why = AmbiguousTarget | TargetLinkedElsewhere | TargetOwnedElsewhere

  datatype Action = Move | Retire | Refuse(why: Why)

  datatype Item = Item(link: int, did: string, from: int, to: int, linkedAt: int, action: Action)

  /** Evidence is only kept for real transfers. */
  predicate PairsOk(pairs: Pairs) {
    forall o :: o in pairs ==> o > 0 && forall n :: n in pairs[o] ==> n > 0 && n != o
  }

  // -------------------------------------------------------------- active links

  /** Who is linked where. */
  function ActivePairs(links: Links): set<(string, int)> {
    set l | l in links && links[l].revokedAt.None? :: (links[l].did, links[l].aid)
  }

  predicate Applies(i: Item) {
    i.action == Move || i.action == Retire
  }

  /** What an applied item does to who is linked where. */
  function AfterItem(active: set<(string, int)>, i: Item): set<(string, int)> {
    (if i.action == Move then active + {(i.did, i.to)} else active) - {(i.did, i.from)}
  }

  function AfterItems(active: set<(string, int)>, items: seq<Item>): set<(string, int)> {
    if items == [] then active
    else
      var before := AfterItems(active, items[..|items| - 1]);
      if Applies(items[|items| - 1]) then AfterItem(before, items[|items| - 1]) else before
  }

  // ---------------------------------------------------------------- the plan

  /** The item speaks of an active link on a transferred account. */
  predicate SpeaksOf(links: Links, pairs: Pairs, i: Item) {
    && i.link in links && links[i.link] == Link(i.did, i.from, i.linkedAt, None) && i.from in pairs
    && (Applies(i) ==> pairs[i.from] == {i.to})
  }

  /** Nobody else is linked to the target, now or by an earlier item. */
  ghost predicate TargetOwn(active: set<(string, int)>, items: seq<Item>, k: nat)
    requires k < |items|
  {
    && (forall d :: (d, items[k].to) in active ==> d == items[k].did)
    && (forall j :: 0 <= j < k && Applies(items[j]) && items[j].to == items[k].to ==> items[j].did == items[k].did)
  }

  /** The same player is already linked to the target, or is about to be. */
  ghost predicate Claimed(active: set<(string, int)>, items: seq<Item>, k: nat)
    requires k < |items|
  {
    || (items[k].did, items[k].to) in active
    || exists j :: 0 <= j < k && Applies(items[j]) && items[j].did == items[k].did && items[j].to == items[k].to
  }

  ghost predicate PlanOk(links: Links, pairs: Pairs, items: seq<Item>) {
    && (forall k :: 0 <= k < |items| ==> SpeaksOf(links, pairs, items[k]))
    && (forall j, k :: 0 <= j < k < |items| ==> items[j].link < items[k].link)
    && (forall k :: 0 <= k < |items| && Applies(items[k]) ==>
          TargetOwn(ActivePairs(links), items, k)
          && (items[k].action == Retire <==> Claimed(ActivePairs(links), items, k)))
  }

  // --------------------------------------------------- where everyone ends up

  /** Someone linked to an account is so at the end unless an item took them away. */
  lemma {:induction false} AddedOrKept(active: set<(string, int)>, items: seq<Item>, p: (string, int))
    requires forall k :: 0 <= k < |items| && Applies(items[k]) ==> (items[k].did, items[k].from) != p
    ensures p in AfterItems(active, items) <==>
              p in active || exists k :: 0 <= k < |items| && items[k].action == Move && (items[k].did, items[k].to) == p
  {
    if items != [] {
      var n := |items| - 1;
      AddedOrKept(active, items[..n], p);
      assert forall k :: 0 <= k < n ==> items[..n][k] == items[k];
      if items[n].action == Move && (items[n].did, items[n].to) == p {
        assert p in AfterItems(active, items);
      }
    }
  }

  /** Someone taken away, and never put back, is gone. */
  lemma {:induction false} TakenAway(active: set<(string, int)>, items: seq<Item>, p: (string, int), j: nat)
    requires j < |items| && Applies(items[j]) && (items[j].did, items[j].from) == p
    requires forall k :: 0 <= k < |items| && items[k].action == Move ==> (items[k].did, items[k].to) != p
    ensures p !in AfterItems(active, items)
  {
    var n := |items| - 1;
    assert forall k :: 0 <= k < n ==> items[..n][k] == items[k];
    if j < n {
      TakenAway(active, items[..n], p, j);
    }
  }

  /** A target that someone claims is reached by a first move or was reached before. */
  lemma {:induction false} ClaimHasMove(links: Links, pairs: Pairs, items: seq<Item>, k: nat)
    requires PlanOk(links, pairs, items) && k < |items| && Applies(items[k])
    ensures || (items[k].did, items[k].to) in ActivePairs(links)
            || exists j :: 0 <= j <= k && items[j].action == Move
                           && (items[j].did, items[j].to) == (items[k].did, items[k].to)
    decreases k
  {
    if items[k].action == Retire && (items[k].did, items[k].to) !in ActivePairs(links) {
      assert Claimed(ActivePairs(links), items, k);
      var j :| 0 <= j < k && Applies(items[j]) && items[j].did == items[k].did && items[j].to == items[k].to;
      ClaimHasMove(links, pairs, items, j);
    }
  }

  /** When every item of a plan is applied, its player is linked to the new account at
      the end, unless the plan took that very link on to a third account. */
  lemma EveryoneArrives(links: Links, pairs: Pairs, items: seq<Item>, k: nat)
    requires PlanOk(links, pairs, items) && k < |items| && Applies(items[k])
    ensures (items[k].did, items[k].to) in AfterItems(ActivePairs(links), items) <==>
              forall j :: 0 <= j < |items| && Applies(items[j]) ==>
                (items[j].did, items[j].from) != (items[k].did, items[k].to)
  {
    var p := (items[k].did, items[k].to);
    if forall j :: 0 <= j < |items| && Applies(items[j]) ==> (items[j].did, items[j].from) != p {
      ClaimHasMove(links, pairs, items, k);
      AddedOrKept(ActivePairs(links), items, p);
    } else {
      var j :| 0 <= j < |items| && Applies(items[j]) && (items[j].did, items[j].from) == p;
      assert SpeaksOf(links, pairs, items[j]);
      assert p in ActivePairs(links);
      forall m | 0 <= m < |items| && items[m].action == Move ensures (items[m].did, items[m].to) != p {
        assert !Claimed(ActivePairs(links), items, m);
      }
      TakenAway(ActivePairs(links), items, p, j);
    }
  }

  /** And nobody who was moved or retired is still linked to the old account. */
  lemma EveryoneLeaves(links: Links, pairs: Pairs, items: seq<Item>, k: nat)
    requires PlanOk(links, pairs, items) && k < |items| && Applies(items[k])
    ensures (items[k].did, items[k].from) !in AfterItems(ActivePairs(links), items)
  {
    var p := (items[k].did, items[k].from);
    assert SpeaksOf(links, pairs, items[k]);
    assert p in ActivePairs(links);
    forall m | 0 <= m < |items| && items[m].action == Move ensures (items[m].did, items[m].to) != p {
      assert !Claimed(ActivePairs(links), items, m);
    }
    TakenAway(ActivePairs(links), items, p, k);
  }

  /** Whatever items were applied, and in whatever subset, an account has one Discord
      identity at most. */
  lemma OneIdentityAnAccount(db: Db, d: string, e: string, a: int)
    requires Inv(db) && (d, a) in ActivePairs(db.links) && (e, a) in ActivePairs(db.links)
    ensures d == e
  {
    assert Mirror(db.links, db.profiles, db.bindings) && UniqueActive(db.bindings);
    hide Inv;
    var l :| l in db.links && db.links[l].revokedAt.None? && (db.links[l].did, db.links[l].aid) == (d, a);
    var m :| m in db.links && db.links[m].revokedAt.None? && (db.links[m].did, db.links[m].aid) == (e, a);
    var p :| MirroredBy(db.links, db.bindings, l, p);
    var q :| MirroredBy(db.links, db.bindings, m, q);
    assert Mirrors(db.links, db.profiles, Key(p, a), db.bindings[Key(p, a)]);
    assert Mirrors(db.links, db.profiles, Key(q, a), db.bindings[Key(q, a)]);
    assert Key(p, a) == Key(q, a);
  }

  // ------------------------------------------------------------- progress

  /** How many transfers there are still to follow, summed over all active links. */
  ghost function Distance(active: set<(string, int)>, rank: int -> nat): nat
    decreases |active|
  {
    if active == {} then 0
    else
      var p :| p in active;
      rank(p.1) + Distance(active - {p}, rank)
  }

  lemma {:induction false} DistanceWithout(active: set<(string, int)>, rank: int -> nat, p: (string, int))
    requires p in active
    ensures Distance(active, rank) == rank(p.1) + Distance(active - {p}, rank)
    decreases |active|
  {
    var q :| q in active && Distance(active, rank) == rank(q.1) + Distance(active - {q}, rank);
    if q != p {
      DistanceWithout(active - {q}, rank, p);
      DistanceWithout(active - {p}, rank, q);
      assert active - {q} - {p} == active - {p} - {q};
    }
  }

  lemma DistanceWith(active: set<(string, int)>, rank: int -> nat, p: (string, int))
    ensures Distance(active + {p}, rank) <= Distance(active, rank) + rank(p.1)
  {
    if p in active {
      assert active + {p} == active;
    } else {
      DistanceWithout(active + {p}, rank, p);
      assert active + {p} - {p} == active;
    }
  }

  /** Where transfers do not go in circles, `rank` counts how many are still ahead. */
  ghost predicate Ranks(pairs: Pairs, rank: int -> nat) {
    forall o, n :: o in pairs && n in pairs[o] ==> rank(n) < rank(o)
  }

  /** Every applied item brings someone closer, so ticks that apply come to an end. */
  lemma ItemsBringCloser(links: Links, pairs: Pairs, active: set<(string, int)>, i: Item, rank: int -> nat)
    requires Ranks(pairs, rank) && SpeaksOf(links, pairs, i) && Applies(i) && (i.did, i.from) in active
    ensures Distance(AfterItem(active, i), rank) < Distance(active, rank)
  {
    var p, q := (i.did, i.from), (i.did, i.to);
    assert i.to in pairs[i.from] && rank(i.to) < rank(i.from);
    DistanceWithout(active, rank, p);
    if i.action == Move {
      assert AfterItem(active, i) == active - {p} + {q};
      DistanceWith(active - {p}, rank, q);
    } else {
      assert AfterItem(active, i) == active - {p};
    }
  }

  // ------------------------------------------------------------------ planning

  lemma {:induction false} LeastOf(s: set<int>) returns (m: int)
    requires s != {}
    ensures m in s && forall x :: x in s ==> m <= x
    decreases |s|
  {
    EmptyOrMember(s);
    var x :| x in s;
    var rest := s - {x};
    assert s == rest + {x};
    if rest == {} {
      m := x;
    } else {
      var n := LeastOf(rest);
      m := if n < x then n else x;
    }
  }

  function ActiveIds(links: Links): set<int> {
    set l | l in links && links[l].revokedAt.None?
  }

  /** Accounts with the identities that hold them, as a plan keeps track of them. */
  type Holders = map<int, set<string>>

  predicate HoldsAt(holders: Holders, d: string, a: int) {
    a in holders && d in holders[a]
  }

  /** The links as they are, and the claims of the items so far. */
  ghost predicate Tracks(active: set<(string, int)>, items: seq<Item>, holders: Holders) {
    forall d, a :: HoldsAt(holders, d, a) <==>
      (d, a) in active || exists j :: 0 <= j < |items| && Applies(items[j]) && items[j].did == d && items[j].to == a
  }

  ghost predicate LinkedIn(links: Links, ids: set<int>, d: string, a: int) {
    exists l :: l in ids && l in links && links[l].did == d && links[l].aid == a
  }

  lemma OneMoreLinked(links: Links, ids: set<int>, l: int, d: string, a: int)
    requires l in links
    ensures LinkedIn(links, ids + {l}, d, a) <==> LinkedIn(links, ids, d, a) || (d == links[l].did && a == links[l].aid)
  {
    assert l in ids + {l} && forall m :: m in ids ==> m in ids + {l};
  }

  method ActiveHolders(links: Links) returns (holders: Holders)
    ensures Tracks(ActivePairs(links), [], holders)
  {
    holders := map[];
    var todo := ActiveIds(links);
    ghost var seen: set<int> := {};
    while todo != {}
      invariant seen + todo == ActiveIds(links)
      invariant forall d, a :: HoldsAt(holders, d, a) <==> LinkedIn(links, seen, d, a)
    {
      EmptyOrMember(todo);
      var l :| l in todo;
      holders := AddHolder(holders, links[l].did, links[l].aid);
      forall d, a
        ensures LinkedIn(links, seen + {l}, d, a) <==>
                  LinkedIn(links, seen, d, a) || (d == links[l].did && a == links[l].aid)
      {
        OneMoreLinked(links, seen, l, d, a);
      }
      todo, seen := todo - {l}, seen + {l};
    }
    assert seen == ActiveIds(links);
    forall d, a ensures HoldsAt(holders, d, a) <==> (d, a) in ActivePairs(links) {
      if LinkedIn(links, seen, d, a) {
        var l :| l in seen && l in links && links[l].did == d && links[l].aid == a;
        assert links[l].revokedAt.None?;
      }
      if (d, a) in ActivePairs(links) {
        var l :| l in links && links[l].revokedAt.None? && (links[l].did, links[l].aid) == (d, a);
        assert l in seen;
      }
    }
  }

  function AddHolder(holders: Holders, d: string, a: int): (r: Holders)
    ensures forall e, b :: HoldsAt(r, e, b) <==> HoldsAt(holders, e, b) || (e, b) == (d, a)
  {
    holders[a := (if a in holders then holders[a] else {}) + {d}]
  }

  /** An owner on record is the profile of this Discord identity; nobody on record is
      nobody's profile. */
  ghost predicate OwnedBy(profiles: Profiles, owner: Option<string>, did: string) {
    match owner
    case Some(p) => IsProfileOf(profiles, p, did)
    case None => forall p :: p in profiles ==> !IsProfileOf(profiles, p, did)
  }

  /** The one right action for an item, given the links and the items before it. */
  ghost predicate Judged(db: Db, pairs: Pairs, items: seq<Item>, k: nat)
    requires k < |items|
  {
    var i, active := items[k], ActivePairs(db.links);
    && i.from in pairs
    && if |pairs[i.from]| != 1 then i.action == Refuse(AmbiguousTarget)
       else
         && pairs[i.from] == {i.to}
         && i.action ==
            if !TargetOwn(active, items, k) then Refuse(TargetLinkedElsewhere)
            else if db.installed && i.to in db.owners && !OwnedBy(db.profiles, db.owners[i.to], i.did)
              then Refuse(TargetOwnedElsewhere)
            else if Claimed(active, items, k) then Retire
            else Move
  }

  lemma JudgedOnPrefix(db: Db, pairs: Pairs, items: seq<Item>, x: Item, k: nat)
    requires k < |items|
    ensures Judged(db, pairs, items + [x], k) <==> Judged(db, pairs, items, k)
  {
    var more := items + [x];
    assert forall j :: 0 <= j < |items| ==> more[j] == items[j];
    assert TargetOwn(ActivePairs(db.links), more, k) <==> TargetOwn(ActivePairs(db.links), items, k);
    assert Claimed(ActivePairs(db.links), more, k) <==> Claimed(ActivePairs(db.links), items, k);
    hide TargetOwn, Claimed, OwnedBy;
  }

  lemma TracksMore(active: set<(string, int)>, items: seq<Item>, holders: Holders, x: Item)
    requires Tracks(active, items, holders)
    ensures Tracks(active, items + [x], if Applies(x) then AddHolder(holders, x.did, x.to) else holders)
  {
    var more := items + [x];
    assert forall j :: 0 <= j < |items| ==> more[j] == items[j];
    var later := if Applies(x) then AddHolder(holders, x.did, x.to) else holders;
    forall d, a ensures HoldsAt(later, d, a) <==>
        (d, a) in active || exists j :: 0 <= j < |more| && Applies(more[j]) && more[j].did == d && more[j].to == a
    {
      if Applies(x) && (d, a) == (x.did, x.to) {
        assert Applies(more[|items|]);
      }
      if j :| 0 <= j < |items| && Applies(items[j]) && items[j].did == d && items[j].to == a {
        assert Applies(more[j]);
      }
    }
  }

  /** What the holders say about a target is what the plan's rules ask. */
  lemma TracksTarget(active: set<(string, int)>, items: seq<Item>, holders: Holders, x: Item)
    requires Tracks(active, items, holders)
    ensures TargetOwn(active, items + [x], |items|) <==> forall d :: HoldsAt(holders, d, x.to) ==> d == x.did
    ensures Claimed(active, items + [x], |items|) <==> HoldsAt(holders, x.did, x.to)
  {
    TracksClaim(active, items, holders, x);
    var more := items + [x];
    assert forall j :: 0 <= j < |items| ==> more[j] == items[j];
    if TargetOwn(active, more, |items|) {
      forall d | HoldsAt(holders, d, x.to) ensures d == x.did {
        if (d, x.to) !in active {
          var j :| 0 <= j < |items| && Applies(items[j]) && items[j].did == d && items[j].to == x.to;
          assert Applies(more[j]);
        }
      }
    }
    if forall d :: HoldsAt(holders, d, x.to) ==> d == x.did {
      forall j | 0 <= j < |items| && Applies(more[j]) && more[j].to == x.to ensures more[j].did == x.did {
        assert Applies(items[j]) && HoldsAt(holders, items[j].did, x.to);
      }
      forall d | (d, x.to) in active ensures d == x.did {
        assert HoldsAt(holders, d, x.to);
      }
    }
  }

  lemma TracksClaim(active: set<(string, int)>, items: seq<Item>, holders: Holders, x: Item)
    requires Tracks(active, items, holders)
    ensures Claimed(active, items + [x], |items|) <==> HoldsAt(holders, x.did, x.to)
  {
    var more := items + [x];
    assert forall j :: 0 <= j < |items| ==> more[j] == items[j];
    if HoldsAt(holders, x.did, x.to) && (x.did, x.to) !in active {
      var j :| 0 <= j < |items| && Applies(items[j]) && items[j].did == x.did && items[j].to == x.to;
      assert Applies(more[j]);
    }
    if Claimed(active, more, |items|) && (x.did, x.to) !in active {
      var j :| 0 <= j < |items| && Applies(more[j]) && more[j].did == x.did && more[j].to == x.to;
      assert Applies(items[j]);
    }
  }

  /** One link on a transferred account, judged. */
  method JudgeLink(db: Db, pairs: Pairs, ghost items: seq<Item>, holders: Holders, l: int) returns (x: Item)
    requires UniqueLegacy(db.profiles) && Tracks(ActivePairs(db.links), items, holders)
    requires l in db.links && db.links[l].revokedAt.None? && db.links[l].aid in pairs
    ensures x.link == l && SpeaksOf(db.links, pairs, x) && Judged(db, pairs, items + [x], |items|)
  {
    var link := db.links[l];
    var targets := pairs[link.aid];
    if |targets| != 1 {
      return Item(l, link.did, link.aid, 0, link.linkedAt, Refuse(AmbiguousTarget));
    }
    EmptyOrMember(targets);
    var to :| to in targets;
    assert targets == {to} by { OnlyMember(targets, to); }
    var own := FindProfile(db.profiles, link.did);
    var item := Item(l, link.did, link.aid, to, link.linkedAt, Move);
    ghost var active := ActivePairs(db.links);
    assert forall a :: (items + [item.(action := a)])[|items|] == item.(action := a);
    TracksTarget(active, items, holders, item);
    TracksTarget(active, items, holders, item.(action := Retire));
    TracksTarget(active, items, holders, item.(action := Refuse(TargetLinkedElsewhere)));
    TracksTarget(active, items, holders, item.(action := Refuse(TargetOwnedElsewhere)));
    hide TargetOwn, Claimed, Tracks;
    var there := if to in holders then holders[to] else {};
    assert forall d :: d in there <==> HoldsAt(holders, d, to);
    if exists d :: d in there && d != link.did {
      return item.(action := Refuse(TargetLinkedElsewhere));
    }
    if db.installed && to in db.owners && db.owners[to] != own {
      return item.(action := Refuse(TargetOwnedElsewhere));
    }
    return if HoldsAt(holders, link.did, to) then item.(action := Retire) else item;
  }

  lemma OnlyMember(s: set<int>, x: int)
    requires |s| == 1 && x in s
    ensures s == {x}
  {
    assert |s - {x}| == 0;
    assert s == (s - {x}) + {x};
  }

  ghost predicate PlanExact(db: Db, pairs: Pairs, items: seq<Item>) {
    && (forall k :: 0 <= k < |items| ==> SpeaksOf(db.links, pairs, items[k]) && Judged(db, pairs, items, k))
    && (forall j, k :: 0 <= j < k < |items| ==> items[j].link < items[k].link)
  }

  /** An exact plan is a sound one. */
  lemma ExactIsOk(db: Db, pairs: Pairs, items: seq<Item>)
    requires PlanExact(db, pairs, items)
    ensures PlanOk(db.links, pairs, items)
  {
    hide TargetOwn, Claimed, OwnedBy;
    forall k | 0 <= k < |items| && Applies(items[k])
      ensures TargetOwn(ActivePairs(db.links), items, k)
      ensures (items[k].action == Retire <==> Claimed(ActivePairs(db.links), items, k))
    {
      assert Judged(db, pairs, items, k);
    }
  }

  lemma ExactSpeaks(db: Db, pairs: Pairs, items: seq<Item>)
    requires PlanExact(db, pairs, items)
    ensures forall k :: 0 <= k < |items| ==> SpeaksOf(db.links, pairs, items[k])
  {
    hide Judged, SpeaksOf;
  }

  lemma ExactMore(db: Db, pairs: Pairs, items: seq<Item>, x: Item)
    requires PlanExact(db, pairs, items) && SpeaksOf(db.links, pairs, x) && Judged(db, pairs, items + [x], |items|)
    requires forall k :: 0 <= k < |items| ==> items[k].link < x.link
    ensures PlanExact(db, pairs, items + [x])
  {
    hide Judged, SpeaksOf;
    forall k | 0 <= k < |items| + 1
      ensures SpeaksOf(db.links, pairs, (items + [x])[k]) && Judged(db, pairs, items + [x], k)
    {
      if k < |items| {
        JudgedOnPrefix(db, pairs, items, x, k);
      }
    }
  }

  predicate HasItem(items: seq<Item>, l: int) {
    exists k :: 0 <= k < |items| && items[k].link == l
  }

  lemma HasItemMore(items: seq<Item>, x: Item, l: int)
    ensures HasItem(items + [x], l) <==> HasItem(items, l) || x.link == l
  {
    var more := items + [x];
    if HasItem(items, l) {
      var k :| 0 <= k < |items| && items[k].link == l;
      assert more[k].link == l;
    }
    assert more[|items|] == x;
  }

  lemma ExactInFull(db: Db, pairs: Pairs, items: seq<Item>)
    requires PlanExact(db, pairs, items)
    ensures forall k :: 0 <= k < |items| ==>
              && items[k].link in db.links && items[k].from in pairs
              && db.links[items[k].link] == Link(items[k].did, items[k].from, items[k].linkedAt, None)
              && (|pairs[items[k].from]| == 1 ==> pairs[items[k].from] == {items[k].to})
              && (|pairs[items[k].from]| != 1 <==> items[k].action == Refuse(AmbiguousTarget))
    ensures forall j, k :: 0 <= j < k < |items| ==> items[j].link < items[k].link
  {
    hide TargetOwn, Claimed, OwnedBy;
    forall k | 0 <= k < |items|
      ensures SpeaksOf(db.links, pairs, items[k]) && Judged(db, pairs, items, k)
    {
    }
  }

  /** Judges every active link on a transferred account, in the order of the table. */
  method Plan(db: Db, pairs: Pairs) returns (items: seq<Item>)
    requires UniqueLegacy(db.profiles)
    ensures PlanExact(db, pairs, items)
    ensures forall l :: l in ActiveIds(db.links) && db.links[l].aid in pairs ==> HasItem(items, l)
    ensures forall k :: 0 <= k < |items| ==>
              && items[k].link in db.links && items[k].from in pairs
              && db.links[items[k].link] == Link(items[k].did, items[k].from, items[k].linkedAt, None)
              && (|pairs[items[k].from]| == 1 ==> pairs[items[k].from] == {items[k].to})
              && (|pairs[items[k].from]| != 1 <==> items[k].action == Refuse(AmbiguousTarget))
    ensures forall j, k :: 0 <= j < k < |items| ==> items[j].link < items[k].link
  {
    hide Judged, SpeaksOf, Tracks, HasItem;
    items := [];
    var holders := ActiveHolders(db.links);
    var todo := ActiveIds(db.links);
    while todo != {}
      invariant todo <= ActiveIds(db.links)
      invariant PlanExact(db, pairs, items) && Tracks(ActivePairs(db.links), items, holders)
      invariant forall k, l :: 0 <= k < |items| && l in todo ==> items[k].link < l
      invariant forall l :: l in ActiveIds(db.links) && l !in todo && db.links[l].aid in pairs ==> HasItem(items, l)
    {
      ghost var least := LeastOf(todo);
      var l :| l in todo && forall m :: m in todo ==> l <= m;
      if db.links[l].aid in pairs {
        var x := JudgeLink(db, pairs, items, holders, l);
        ExactMore(db, pairs, items, x);
        TracksMore(ActivePairs(db.links), items, holders, x);
        forall m ensures HasItem(items + [x], m) <==> HasItem(items, m) || m == l {
          HasItemMore(items, x, m);
        }
        items := items + [x];
        holders := if Applies(x) then AddHolder(holders, x.did, x.to) else holders;
      }
      todo := todo - {l};
    }
    ExactInFull(db, pairs, items);
  }

  // ------------------------------------------------------------------ applying

  /** A profile's open sessions follow it to the new account. */
  function SessionsFollow(db: Db, pid: string, from: int, to: int): Db
    requires Key(pid, to) in db.bindings
  {
    db.(sessions := map i | i in db.sessions ::
          if db.sessions[i].pid == pid && db.sessions[i].aid == from && !db.sessions[i].revoked
          then db.sessions[i].(aid := to, lv := db.bindings[Key(pid, to)].version)
          else db.sessions[i])
  }

  lemma FollowSessions(a: Db, pid: string, from: int, to: int)
    requires Key(pid, to) in a.bindings && SessionsBound(a.sessions, a.bindings) && TokensOk(a.sessions, a.drawn)
    requires References(a)
    requires !a.installed ==> NotYet(a)
    ensures var b := SessionsFollow(a, pid, from, to);
            && SessionsBound(b.sessions, b.bindings) && TokensOk(b.sessions, b.drawn) && References(b)
            && (!b.installed ==> NotYet(b))
  {
    var b := SessionsFollow(a, pid, from, to);
    forall i | i in b.sessions ensures SessionBound(b.bindings, b.sessions[i]) {
      assert SessionBound(a.bindings, a.sessions[i]);
    }
  }

  lemma FollowCredentials(a: Db, pid: string, from: int, to: int)
    requires Key(pid, to) in a.bindings && CredentialsHold(a)
    ensures CredentialsHold(SessionsFollow(a, pid, from, to)) && SessionsKept(a, SessionsFollow(a, pid, from, to))
  {
  }

  lemma FollowOnly(a: Db, pid: string, from: int, to: int)
    requires Key(pid, to) in a.bindings
    ensures SessionsFollow(a, pid, from, to) == a.(sessions := SessionsFollow(a, pid, from, to).sessions)
  {
  }

  lemma SessionsFollowKeeps(a: Db, pid: string, from: int, to: int)
    requires Inv(a) && Key(pid, to) in a.bindings
    ensures var b := SessionsFollow(a, pid, from, to); Inv(b) && Evolves(a, b)
  {
    SessionFacts(a);
    hide *;
    FollowSessions(a, pid, from, to);
    FollowCredentials(a, pid, from, to);
    FollowOnly(a, pid, from, to);
    SessionsOnly(a, SessionsFollow(a, pid, from, to));
  }

  method FindLink(links: Links, did: string, aid: int) returns (r: Option<int>)
    ensures r.Some? ==> r.value in links && links[r.value].did == did && links[r.value].aid == aid
    ensures r.None? ==> forall l :: l in links ==> !(links[l].did == did && links[l].aid == aid)
  {
    var todo := links.Keys;
    while todo != {}
      invariant todo <= links.Keys
      invariant forall l :: l in links && l !in todo ==> !(links[l].did == did && links[l].aid == aid)
    {
      EmptyOrMember(todo);
      var l :| l in todo;
      if links[l].did == did && links[l].aid == aid {
        return Some(l);
      }
      todo := todo - {l};
    }
    return None;
  }

  /** The next row number. */
  method NextId(links: Links) returns (id: int)
    ensures id > 0 && forall l :: l in links ==> l < id
  {
    id := 1;
    var todo := links.Keys;
    while todo != {}
      invariant id > 0 && todo <= links.Keys && forall l :: l in links && l !in todo ==> l < id
    {
      EmptyOrMember(todo);
      var l :| l in todo;
      id := if l < id then id else l + 1;
      todo := todo - {l};
    }
  }

  /** The rows as the transaction leaves them: the new link written first for a move,
      then the old one revoked. */
  function RowsAfter(links: Links, i: Item, id: int, now: int): Links {
    var written := if i.action == Move then links[id := Link(i.did, i.to, i.linkedAt, None)] else links;
    if i.link in written then written[i.link := written[i.link].(revokedAt := Some(now))] else written
  }

  /** `id` is the row of the identity on the new account, or a new row. */
  predicate IsRowFor(links: Links, i: Item, id: int) {
    if id in links then links[id].did == i.did && links[id].aid == i.to
    else forall l :: l in links ==> !(links[l].did == i.did && links[l].aid == i.to)
  }

  lemma WrittenPairs(links: Links, i: Item, id: int)
    requires PairsUniqueIn(links, links.Keys) && IsRowFor(links, i, id)
    ensures var w := links[id := Link(i.did, i.to, i.linkedAt, None)];
            ActivePairs(w) == ActivePairs(links) + {(i.did, i.to)} && PairsUniqueIn(w, w.Keys)
  {
    var w := links[id := Link(i.did, i.to, i.linkedAt, None)];
    forall p | p in ActivePairs(links) ensures p in ActivePairs(w) {
      var l :| l in links && links[l].revokedAt.None? && (links[l].did, links[l].aid) == p;
      if l == id {
        assert w[id].revokedAt.None? && (w[id].did, w[id].aid) == p;
      } else {
        assert w[l] == links[l];
      }
    }
    assert w[id].revokedAt.None? && (w[id].did, w[id].aid) == (i.did, i.to);
    forall p | p in ActivePairs(w) ensures p in ActivePairs(links) + {(i.did, i.to)} {
      var l :| l in w && w[l].revokedAt.None? && (w[l].did, w[l].aid) == p;
      if l != id {
        assert l in links && links[l] == w[l];
      }
    }
  }

  lemma RevokedPairs(links: Links, l: int, now: int)
    requires PairsUniqueIn(links, links.Keys) && l in links
    ensures ActivePairs(links[l := links[l].(revokedAt := Some(now))])
              == ActivePairs(links) - {(links[l].did, links[l].aid)}
  {
    var w := links[l := links[l].(revokedAt := Some(now))];
    forall p | p in ActivePairs(links) && p != (links[l].did, links[l].aid) ensures p in ActivePairs(w) {
      var m :| m in links && links[m].revokedAt.None? && (links[m].did, links[m].aid) == p;
      assert w[m] == links[m];
    }
    forall p | p in ActivePairs(w) ensures p in ActivePairs(links) && p != (links[l].did, links[l].aid) {
      var m :| m in w && w[m].revokedAt.None? && (w[m].did, w[m].aid) == p;
      assert m != l && links[m] == w[m];
    }
  }

  lemma RowsAfterPairs(links: Links, i: Item, id: int, now: int)
    requires PairsUniqueIn(links, links.Keys) && (i.action == Move ==> IsRowFor(links, i, id)) && i.from != i.to
    requires i.link in links && links[i.link].did == i.did && links[i.link].aid == i.from
    ensures ActivePairs(RowsAfter(links, i, id, now)) == AfterItem(ActivePairs(links), i)
  {
    if i.action == Move {
      WrittenPairs(links, i, id);
      RevokedPairs(links[id := Link(i.did, i.to, i.linkedAt, None)], i.link, now);
    } else {
      RevokedPairs(links, i.link, now);
    }
  }

  datatype RelinkError = NotApplicable | LinkChanged | Refused(reason: MigrationError)

  /** The row to be revoked is still there and still active. */
  predicate StillThere(links: Links, i: Item) {
    i.link in links && links[i.link].aid == i.from && links[i.link].revokedAt.None?
  }

  /** The session is one that follows its profile to the new account. */
  ghost predicate Follows(db: Db, i: Item, s: Session) {
    && db.installed && IsProfileOf(db.profiles, s.pid, i.did) && s.aid == i.from && !s.revoked
    && Key(s.pid, i.to) in db.bindings && Active(db.bindings[Key(s.pid, i.to)])
  }

  /** The open sessions of the profile have followed, where the profile holds the
      target, and no others. */
  ghost predicate Followed(a: Db, b: Db, i: Item) {
    && b.sessions.Keys == a.sessions.Keys
    && forall s :: s in a.sessions ==>
         b.sessions[s] ==
         if Follows(b, i, a.sessions[s])
         then a.sessions[s].(aid := i.to, lv := b.bindings[Key(a.sessions[s].pid, i.to)].version)
                          else a.sessions[s]
  }

  /** The whole effect of an item: its rows, carried over to the bindings, and the
      sessions that follow. */
  ghost predicate Relinked(a: Db, b: Db, i: Item, now: int) {
    && Followed(a, b, i)
    && exists id, pid :: (i.action == Move ==> IsRowFor(a.links, i, id)) && b.links == RowsAfter(a.links, i, id, now)
                         && Finished(a, b.(sessions := a.sessions), i.did, pid)
  }

  /** An edit within an identity that is known leaves its profile as it was. */
  lemma KnownKeepsProfiles(a: Db, b: Db, i: Item, newPid: string, pid: string)
    requires Inv(a) && i.link in a.links && a.links[i.link].did == i.did
    requires IsChosen(a.profiles, i.did, newPid, pid) && newPid !in a.profiles && Finished(a, b, i.did, pid)
    ensures b.profiles == a.profiles && b.sessions == a.sessions && b.installed == a.installed
    ensures UniqueLegacy(b.profiles)
  {
    var p := KnownLinkHasProfile(a, i.link);
    assert UniqueLegacy(a.profiles);
    hide Inv, Rebound, PortalIdentity.Claimed, UniqueLegacy;
  }

  lemma RevokedRowIsOwn(before: Links, after: Links, i: Item, id: int, now: int, did: string)
    requires StillThere(before, i) && after == RowsAfter(before, i, id, now)
    requires (i.action == Move ==> IsRowFor(before, i, id)) && i.from != i.to
    requires WithinIdentity(before, after, did)
    ensures before[i.link].did == did && Changed(before, after) != {}
  {
    assert i.link in Changed(before, after);
  }

  lemma FollowExact(db: Db, i: Item, own: string)
    requires UniqueLegacy(db.profiles) && IsProfileOf(db.profiles, own, i.did)
    requires db.installed && Key(own, i.to) in db.bindings && Active(db.bindings[Key(own, i.to)])
    ensures Followed(db, SessionsFollow(db, own, i.from, i.to), i)
  {
    var b := SessionsFollow(db, own, i.from, i.to);
    forall s | s in db.sessions
      ensures b.sessions[s] == if Follows(b, i, db.sessions[s])
                               then db.sessions[s].(aid := i.to,
                                                    lv := b.bindings[Key(db.sessions[s].pid, i.to)].version)
                               else db.sessions[s]
    {
      if IsProfileOf(db.profiles, db.sessions[s].pid, i.did) {
        SameProfile(db.profiles, own, db.sessions[s].pid, i.did);
      }
    }
  }

  lemma FollowNobody(db: Db, i: Item, own: Option<string>)
    requires UniqueLegacy(db.profiles)
    requires if own.Some? then IsProfileOf(db.profiles, own.value, i.did) else forall p :: p in db.profiles ==>
              !IsProfileOf(db.profiles, p, i.did)
    requires !(own.Some? && db.installed && Key(own.value, i.to) in db.bindings
               && Active(db.bindings[Key(own.value, i.to)]))
    ensures Followed(db, db, i)
  {
    forall s | s in db.sessions ensures !Follows(db, i, db.sessions[s]) {
      if IsProfileOf(db.profiles, db.sessions[s].pid, i.did) {
        SameProfile(db.profiles, own.value, db.sessions[s].pid, i.did);
      }
    }
  }

  /** Moves the sessions when there is a binding to move them to. */
  method Follow(db: Db, i: Item) returns (b: Db)
    requires Inv(db)
    ensures Inv(b) && Evolves(db, b) && Followed(db, b, i) && b == db.(sessions := b.sessions)
  {
    EvolvesItself(db);
    assert UniqueLegacy(db.profiles);
    hide Inv, Evolves, UniqueLegacy, Followed, IsProfileOf, Active;
    b := db;
    var own := FindProfile(db.profiles, i.did);
    if own.Some? && db.installed && Key(own.value, i.to) in db.bindings && Active(db.bindings[Key(own.value, i.to)]) {
      SessionsFollowKeeps(db, own.value, i.from, i.to);
      FollowExact(db, i, own.value);
      b := SessionsFollow(db, own.value, i.from, i.to);
    } else {
      FollowNobody(db, i, own);
    }
  }

  method EditRows(links: Links, i: Item, now: int) returns (after: Links, id: int)
    requires StillThere(links, i) && Applies(i) && i.from != i.to
    ensures after == RowsAfter(links, i, id, now)
    ensures i.action == Move ==> IsRowFor(links, i, id) && (id !in links ==> id > 0)
  {
    after, id := links, 0;
    if i.action == Move {
      var row := FindLink(links, i.did, i.to);
      if row.Some? {
        id := row.value;
      } else {
        id := NextId(links);
      }
      after := after[id := Link(i.did, i.to, i.linkedAt, None)];
    }
    after := after[i.link := after[i.link].(revokedAt := Some(now))];
  }

  /** An item can be begun: it is one to apply, its identity and the links are well
      formed, and its row is still there. */
  ghost predicate MayBegin(db: Db, i: Item) {
    Applies(i) && ValidDiscordId(i.did) && LinksValid(db.links) && StillThere(db.links, i)
  }

  function ChangeOf(db: Db, i: Item): Change {
    Change(i.did, i.action == Move, db.links)
  }

  /** The rows of an item, carried over to the bindings in a transaction that is left
      open, or nothing. */
  method ApplyRows(conn: Connection, i: Item, newPid: string, now: int)
    returns (r: Result<(), RelinkError>, ghost id: int, ghost pid: string)
    requires Inv(conn.db) && newPid !in conn.db.profiles && i.from != i.to
    modifies conn
    ensures MayBegin(old(conn.db), i) && old(conn.begun).None? ==>
              && (i.action == Move ==> IsRowFor(old(conn.db).links, i, id))
              && IsChosen(old(conn.db).profiles, i.did, newPid, pid)
              && (id !in old(conn.db).links ==> id > 0 || i.action != Move)
    ensures r.Ok? <==> && old(conn.begun).None? && MayBegin(old(conn.db), i)
                       && Acceptable(old(conn.db), RowsAfter(old(conn.db).links, i, id, now),
                                     ChangeOf(old(conn.db), i), pid)
    ensures r.Err? ==> conn.db == old(conn.db) && (old(conn.begun).None? ==> conn.begun.None?)
    ensures r.Ok? ==> Inv(conn.db) && Evolves(old(conn.db), conn.db) && Finished(old(conn.db), conn.db, i.did, pid)
    ensures r.Ok? ==> conn.db.links == RowsAfter(old(conn.db).links, i, id, now)
  {
    id, pid := 0, "";
    hide Inv, Evolves, LinksValid, StaleStays, RowsAfter, Acceptable, Finished, ValidDiscordId, IsChosen;
    if !Applies(i) {
      r := Err(NotApplicable);
      return;
    }
    var change := BeginLegacyLinks(conn, i.did, i.action == Move);
    if change.Err? {
      r := Err(Refused(change.error));
      return;
    }
    if !StillThere(conn.db.links, i) {
      conn.Rollback();
      r := Err(LinkChanged);
      return;
    }
    var after, row := EditRows(conn.db.links, i, now);
    id := row;
    hide IsRowFor;
    conn.db := conn.db.(links := after);
    var finished;
    finished, pid := FinishLegacyLinks(conn, change.value, newPid);
    if finished.Err? {
      r := Err(Refused(finished.error));
      return;
    }
    r := Ok(());
  }

  /** There is something to apply, for a Discord identity, in a sound table, and its link
      is still active on the old account. */
  ghost predicate ItemReady(db: Db, i: Item) {
    && (i.action == Move || i.action == Retire)
    && 1 <= |i.did| <= 20 && i.did[0] != '0' && (forall n :: 0 <= n < |i.did| ==> '0' <= i.did[n] <= '9')
    && SoundLinks(db.links) && i.link in db.links && db.links[i.link].aid == i.from
    && db.links[i.link].revokedAt.None?
  }

  lemma BeginningIsReady(db: Db, i: Item)
    ensures MayBegin(db, i) <==> ItemReady(db, i)
  {
    ValidIsSound(db.links);
    assert ValidDiscordId(i.did) <==>
      1 <= |i.did| <= 20 && i.did[0] != '0' && forall n :: 0 <= n < |i.did| ==> '0' <= i.did[n] <= '9';
    hide LinksValid, SoundLinks, ValidDiscordId;
  }

  /** The table as the item leaves it: for a move the identity's row on the new account,
      active since when the old one was linked; and the old row revoked now. */
  ghost predicate RowsWritten(links: Links, after: Links, i: Item, id: int, now: int) {
    var moved := if i.action == Move then links[id := Link(i.did, i.to, i.linkedAt, None)] else links;
    && (i.action == Move ==>
          if id in links then links[id].did == i.did && links[id].aid == i.to
          else forall l :: l in links && links[l].did == i.did ==> links[l].aid != i.to)
    && i.link in moved
    && after == moved[i.link := Link(moved[i.link].did, moved[i.link].aid, moved[i.link].linkedAt, Some(now))]
  }

  /** The identity's open sessions on the old account are on the new one, at its version,
      if its profile holds that; all others are where they were. */
  ghost predicate SessionsMoved(a: Db, b: Db, i: Item) {
    && b.sessions.Keys == a.sessions.Keys
    && forall n :: n in a.sessions ==>
         var s := a.sessions[n];
         b.sessions[n] ==
         if a.installed && s.pid in b.profiles && b.profiles[s.pid].legacy == Some(i.did)
            && s.aid == i.from && !s.revoked
            && Key(s.pid, i.to) in b.bindings && b.bindings[Key(s.pid, i.to)].revokedAt.None?
         then s.(aid := i.to, lv := b.bindings[Key(s.pid, i.to)].version)
         else s
  }

  /** Links and bindings as an accepted edit leaves them, and the sessions after it. */
  ghost predicate ItemWritten(a: Db, b: Db, i: Item, id: int, pid: string, now: int) {
    && RowsWritten(a.links, b.links, i, id, now)
    && EditDone(a, b.(sessions := a.sessions), i.did, pid)
    && SessionsMoved(a, b, i)
  }

  lemma RowsAreWritten(links: Links, i: Item, id: int, now: int)
    requires StillThere(links, i) && (i.action == Move ==> IsRowFor(links, i, id))
    ensures RowsWritten(links, RowsAfter(links, i, id, now), i, id, now)
    ensures links.Keys <= RowsAfter(links, i, id, now).Keys
  {
  }

  lemma FollowedAreMoved(a: Db, m: Db, b: Db, i: Item)
    requires Followed(m, b, i) && m == b.(sessions := a.sessions) && b.installed == a.installed
    ensures SessionsMoved(a, b, i)
  {
  }

  lemma InstalledStays(a: Db, b: Db, did: string, pid: string)
    requires Finished(a, b, did, pid)
    ensures b.installed == a.installed
  {
    hide Changed, IsProfileOf, Rebound, PortalIdentity.Claimed;
  }

  lemma StepIsWritten(a: Db, b: Db, i: Item, id: int, newPid: string, pid: string, now: int)
    requires ItemStep(a, b, i, id, newPid, pid, now)
    ensures ItemWritten(a, b, i, id, pid, now)
  {
    var m := b.(sessions := a.sessions);
    assert StillThere(a.links, i);
    hide IsRowFor, RowsAfter, Finished, Followed, Acceptable, IsChosen, MayBegin, StillThere, RowsWritten, EditDone,
         SessionsMoved;
    RowsAreWritten(a.links, i, id, now);
    FinishedIsDone(a, m, i.did, pid);
    InstalledStays(a, m, i.did, pid);
    FollowedAreMoved(a, m, b, i);
  }

  lemma AcceptingIsAllowed(db: Db, i: Item, id: int, newPid: string, pid: string, now: int)
    requires Inv(db) && newPid !in db.profiles && IsChosen(db.profiles, i.did, newPid, pid)
    ensures Acceptable(db, RowsAfter(db.links, i, id, now), ChangeOf(db, i), pid) <==>
              EditAllowed(db, RowsAfter(db.links, i, id, now), Change(i.did, i.action == Move, db.links), pid)
  {
    OneProfileEach(db);
    hide Inv, RowsAfter, Acceptable, EditAllowed, IsChosen, UniqueLegacy;
    AcceptableIsAllowed(db, RowsAfter(db.links, i, id, now), ChangeOf(db, i), newPid, pid);
  }

  /** One item in one transaction: all of it, or nothing. */
  method ApplyItem(conn: Connection, i: Item, newPid: string, now: int)
    returns (r: Result<(), RelinkError>, ghost id: int, ghost pid: string)
    requires Inv(conn.db) && newPid !in conn.db.profiles && i.from != i.to
    modifies conn
    ensures MayBegin(old(conn.db), i) && old(conn.begun).None? ==>
              && (i.action == Move ==> IsRowFor(old(conn.db).links, i, id))
              && IsChosen(old(conn.db).profiles, i.did, newPid, pid)
              && (id !in old(conn.db).links ==> id > 0 || i.action != Move)
    ensures r.Ok? <==> && old(conn.begun).None? && MayBegin(old(conn.db), i)
                       && Acceptable(old(conn.db), RowsAfter(old(conn.db).links, i, id, now),
                                     ChangeOf(old(conn.db), i), pid)
    ensures r.Err? ==> conn.db == old(conn.db) && (old(conn.begun).None? ==> conn.begun.None?)
    ensures r.Ok? ==> conn.begun.None? && ItemDone(old(conn.db), conn.db, i, now)
    ensures r.Ok? ==> ItemStep(old(conn.db), conn.db, i, id, newPid, pid, now)
    ensures r.Ok? <==> && old(conn.begun).None? && ItemReady(old(conn.db), i)
                       && EditAllowed(old(conn.db), RowsAfter(old(conn.db).links, i, id, now),
                                      Change(i.did, i.action == Move, old(conn.db).links), pid)
    ensures r.Ok? ==> ItemWritten(old(conn.db), conn.db, i, id, pid, now)
    ensures Inv(conn.db) && Evolves(old(conn.db), conn.db)
  {
    ghost var start := conn.db;
    EvolvesItself(conn.db);
    hide *;
    BeginningIsReady(conn.db, i);
    r, id, pid := ApplyRows(conn, i, newPid, now);
    if old(conn.begun).None? && MayBegin(start, i) {
      AcceptingIsAllowed(start, i, id, newPid, pid, now);
    }
    if r.Err? {
      return;
    }
    ghost var m := conn.db;
    conn.db := Follow(conn.db, i);
    EvolvesChain(start, m, conn.db);
    ItemIsDone(start, m, conn.db, i, id, newPid, pid, now);
    StepIsWritten(start, conn.db, i, id, newPid, pid, now);
    conn.Commit();
  }

  /** The player has been moved or retired: who is linked where has changed as the item
      says, and the rest has followed. */
  ghost predicate ItemDone(a: Db, b: Db, i: Item, now: int) {
    && Applies(i) && StillThere(a.links, i) && a.links[i.link].did == i.did && b.profiles == a.profiles
    && ActivePairs(b.links) == AfterItem(ActivePairs(a.links), i) && Relinked(a, b, i, now)
  }

  /** An accepted item, and the whole of what it does. */
  ghost predicate ItemStep(a: Db, b: Db, i: Item, id: int, newPid: string, pid: string, now: int) {
    && MayBegin(a, i) && i.from != i.to && newPid !in a.profiles && IsChosen(a.profiles, i.did, newPid, pid)
    && (i.action == Move ==> IsRowFor(a.links, i, id))
    && Acceptable(a, RowsAfter(a.links, i, id, now), ChangeOf(a, i), pid) && b.links == RowsAfter(a.links, i, id, now)
    && Finished(a, b.(sessions := a.sessions), i.did, pid) && Followed(b.(sessions := a.sessions), b, i)
  }

  lemma ItemIsDone(a: Db, m: Db, b: Db, i: Item, id: int, newPid: string, pid: string, now: int)
    requires Inv(a) && MayBegin(a, i) && i.from != i.to && newPid !in a.profiles
    requires (i.action == Move ==> IsRowFor(a.links, i, id)) && IsChosen(a.profiles, i.did, newPid, pid)
    requires Acceptable(a, RowsAfter(a.links, i, id, now), ChangeOf(a, i), pid)
    requires Finished(a, m, i.did, pid) && m.links == RowsAfter(a.links, i, id, now)
    requires Followed(m, b, i) && b == m.(sessions := b.sessions)
    ensures ItemDone(a, b, i, now) && ItemStep(a, b, i, id, newPid, pid, now)
  {
    hide Inv, LinksValid, RowsAfter, ActivePairs, AfterItem, Followed, IsRowFor, Acceptable, Finished, Relinked,
         IsChosen, ValidDiscordId, ItemStep;
    AcceptedRow(a, m.links, ChangeOf(a, i), i, id, newPid, pid, now);
    KnownKeepsProfiles(a, m, i, newPid, pid);
    RelinkedFrom(a, m, b, i, id, pid, now);
    StepFrom(a, m, b, i, id, newPid, pid, now);
  }

  lemma StepFrom(a: Db, m: Db, b: Db, i: Item, id: int, newPid: string, pid: string, now: int)
    requires MayBegin(a, i) && i.from != i.to && newPid !in a.profiles && IsChosen(a.profiles, i.did, newPid, pid)
    requires i.action == Move ==> IsRowFor(a.links, i, id)
    requires Acceptable(a, RowsAfter(a.links, i, id, now), ChangeOf(a, i), pid)
    requires Finished(a, m, i.did, pid) && m.links == RowsAfter(a.links, i, id, now)
    requires Followed(m, b, i) && m.sessions == a.sessions && b == m.(sessions := b.sessions)
    ensures ItemStep(a, b, i, id, newPid, pid, now)
  {
    hide Finished, RowsAfter, IsRowFor, Followed, MayBegin, Acceptable, IsChosen;
    assert b.(sessions := a.sessions) == m;
  }

  /** Sessions that have followed are where `SessionsFollow` puts them, or nobody
      followed. */
  lemma FollowedKeeps(m: Db, b: Db, i: Item)
    requires Inv(m) && Followed(m, b, i) && b == m.(sessions := b.sessions)
    ensures Inv(b) && Evolves(m, b)
  {
    assert UniqueLegacy(m.profiles);
    if own :| own in m.profiles && IsProfileOf(m.profiles, own, i.did) && m.installed
              && Key(own, i.to) in m.bindings && Active(m.bindings[Key(own, i.to)]) {
      FollowExact(m, i, own);
      FollowedIsOne(m, b, SessionsFollow(m, own, i.from, i.to), i);
      SessionsFollowKeeps(m, own, i.from, i.to);
    } else {
      NobodyFollows(m, i);
      FollowedIsOne(m, b, m, i);
      EvolvesItself(m);
    }
  }

  lemma NobodyFollows(db: Db, i: Item)
    requires forall own :: own in db.profiles && IsProfileOf(db.profiles, own, i.did) && db.installed ==>
               !(Key(own, i.to) in db.bindings && Active(db.bindings[Key(own, i.to)]))
    ensures Followed(db, db, i)
  {
  }

  lemma FollowedIsOne(m: Db, b: Db, c: Db, i: Item)
    requires Followed(m, b, i) && b == m.(sessions := b.sessions)
    requires Followed(m, c, i) && c == m.(sessions := c.sessions)
    ensures b == c
  {
    forall s | s in m.sessions ensures b.sessions[s] == c.sessions[s] {
      assert Follows(b, i, m.sessions[s]) <==> Follows(c, i, m.sessions[s]);
    }
    assert b.sessions == c.sessions;
  }

  /** An item keeps everything; and a session that was left behind on an account the
      item does not move from stays behind. */
  lemma ItemStepKeeps(a: Db, b: Db, i: Item, id: int, newPid: string, pid: string, now: int)
    requires Inv(a) && ItemStep(a, b, i, id, newPid, pid, now)
    ensures Inv(b) && Evolves(a, b)
    ensures forall s :: s in a.sessions && a.sessions[s].aid != i.from ==>
              s in b.sessions && b.sessions[s] == a.sessions[s]
  {
    var m := b.(sessions := a.sessions);
    assert Changed(a.links, m.links) != {} by { RowIsChanged(a.links, m.links, i, id, now); }
    hide Inv, Evolves, LinksValid, RowsAfter, Followed, IsRowFor, Acceptable, Finished, IsChosen, StaleStays, Changed;
    FinishedKeeps(a, m, ChangeOf(a, i), newPid, pid);
    FollowedKeeps(m, b, i);
    EvolvesChain(a, m, b);
    OthersStayPut(m, b, i);
  }

  lemma OthersStayPut(m: Db, b: Db, i: Item)
    requires Followed(m, b, i)
    ensures forall s :: s in m.sessions && m.sessions[s].aid != i.from ==>
              s in b.sessions && b.sessions[s] == m.sessions[s]
  {
  }

  lemma RelinkedFrom(a: Db, m: Db, b: Db, i: Item, id: int, pid: string, now: int)
    requires Followed(m, b, i) && m.sessions == a.sessions && b == m.(sessions := b.sessions)
    requires Finished(a, m, i.did, pid) && m.links == RowsAfter(a.links, i, id, now)
    requires (i.action == Move ==> IsRowFor(a.links, i, id))
    ensures Relinked(a, b, i, now)
  {
    hide Finished, RowsAfter, IsRowFor, Follows;
    assert b.(sessions := a.sessions) == m;
  }

  lemma AcceptedRow(a: Db, after: Links, change: Change, i: Item, id: int, newPid: string, pid: string, now: int)
    requires change.did == i.did && change.before == a.links && Acceptable(a, after, change, pid) && LinksValid(a.links)
    requires StillThere(a.links, i) && after == RowsAfter(a.links, i, id, now)
    requires (i.action == Move ==> IsRowFor(a.links, i, id)) && i.from != i.to
    ensures a.links[i.link].did == i.did && ActivePairs(after) == AfterItem(ActivePairs(a.links), i)
  {
    assert Changed(a.links, after) != {} by { RowIsChanged(a.links, after, i, id, now); }
    RevokedRowIsOwn(a.links, after, i, id, now, i.did);
    RowsAfterPairs(a.links, i, id, now);
  }

  lemma RowIsChanged(before: Links, after: Links, i: Item, id: int, now: int)
    requires StillThere(before, i) && after == RowsAfter(before, i, id, now)
    requires (i.action == Move ==> IsRowFor(before, i, id)) && i.from != i.to
    ensures Changed(before, after) != {}
  {
    assert i.link in Changed(before, after);
  }

  // ------------------------------------------------------------------- a tick

  datatype Outcome = Planned | Applied | Failed(error: RelinkError) | Refusal(why: Why)

  datatype Summary = Summary(planned: nat, refused: nat, applied: nat, failed: nat, capped: bool,
                             outcomes: seq<Outcome>)

  function Applicable(items: seq<Item>): nat {
    if items == [] then 0 else Applicable(items[..|items| - 1]) + if Applies(items[|items| - 1]) then 1 else 0
  }

  lemma PrefixStep(items: seq<Item>, n: nat)
    requires n < |items|
    ensures items[..n + 1][..n] == items[..n] && items[..n + 1][n] == items[n]
  {
  }

  /** Who was to move, and where everyone is. */
  ghost predicate AllArrived(before: Links, after: Links, items: seq<Item>) {
    forall k :: 0 <= k < |items| && Applies(items[k]) ==>
      && (items[k].did, items[k].from) !in ActivePairs(after)
      && ((items[k].did, items[k].to) in ActivePairs(after) <==>
          forall j :: 0 <= j < |items| && Applies(items[j]) ==>
            (items[j].did, items[j].from) != (items[k].did, items[k].to))
  }

  lemma ArrivedByPlan(links: Links, pairs: Pairs, items: seq<Item>, after: Links)
    requires PlanOk(links, pairs, items) && ActivePairs(after) == AfterItems(ActivePairs(links), items)
    ensures AllArrived(links, after, items)
  {
    forall k | 0 <= k < |items| && Applies(items[k])
      ensures (items[k].did, items[k].from) !in ActivePairs(after)
      ensures (items[k].did, items[k].to) in ActivePairs(after) <==>
              forall j :: 0 <= j < |items| && Applies(items[j]) ==>
                (items[j].did, items[j].from) != (items[k].did, items[k].to)
    {
      EveryoneLeaves(links, pairs, items, k);
      EveryoneArrives(links, pairs, items, k);
    }
  }

  /** One item of a tick, in its turn. */
  method Take(conn: Connection, pairs: Pairs, i: Item, ghost links: Links, newPid: string, now: int,
        ghost rank: int -> nat)
    returns (r: Result<(), RelinkError>)
    requires Inv(conn.db) && newPid !in conn.db.profiles && PairsOk(pairs) && SpeaksOf(links, pairs, i)
    requires conn.begun.None? && Applies(i)
    modifies conn
    ensures Inv(conn.db) && Evolves(old(conn.db), conn.db) && newPid !in conn.db.profiles && conn.begun.None?
    ensures r.Err? ==> conn.db == old(conn.db)
    ensures r.Ok? ==> ActivePairs(conn.db.links) == AfterItem(ActivePairs(old(conn.db).links), i)
    ensures r.Ok? && Ranks(pairs, rank) ==>
              Distance(ActivePairs(conn.db.links), rank) < Distance(ActivePairs(old(conn.db).links), rank)
  {
    ghost var before := conn.db.links;
    hide Inv, Evolves, Relinked, AfterItem, Distance, Ranks, Acceptable, RowsAfter, MayBegin, IsRowFor, IsChosen;
    var applied, id, pid := ApplyItem(conn, i, newPid, now);
    r := applied;
    if r.Ok? && Ranks(pairs, rank) {
      assert (before[i.link].did, before[i.link].aid) in ActivePairs(before);
      ItemsBringCloser(links, pairs, ActivePairs(before), i, rank);
    }
  }

  /** The plan is being applied. */
  predicate Live(s: Summary, apply: bool) {
    apply && !s.capped
  }

  /** What a tick reports of an item. */
  predicate Reported(i: Item, o: Outcome, live: bool) {
    match i.action
    case Refuse(why) => o == Refusal(why)
    case _ => if live then o == Outcome.Applied || o.Failed? else o == Planned
  }

  /** How far a tick has come after `n` items. */
  ghost predicate SoFar(start: Db, db: Db, pairs: Pairs, items: seq<Item>, n: nat, s: Summary, apply: bool,
        rank: int -> nat)
    requires n <= |items|
  {
    && |s.outcomes| == n && (forall k :: 0 <= k < n ==> Reported(items[k], s.outcomes[k], Live(s, apply)))
    && (!Live(s, apply) ==> db == start && s.applied == s.failed == 0)
    && (Live(s, apply) ==> s.applied + s.failed == Applicable(items[..n]))
    && (Live(s, apply) && s.failed == 0 ==> ActivePairs(db.links) == AfterItems(ActivePairs(start.links), items[..n]))
    && (Ranks(pairs, rank) ==>
          Distance(ActivePairs(db.links), rank) + s.applied <= Distance(ActivePairs(start.links), rank))
  }

  lemma SoFarSkipped(start: Db, db: Db, pairs: Pairs, items: seq<Item>, n: nat, s: Summary, apply: bool,
        rank: int -> nat, o: Outcome)
    requires n < |items| && SoFar(start, db, pairs, items, n, s, apply, rank) && (Applies(items[n]) ==> !Live(s, apply))
    requires Reported(items[n], o, Live(s, apply))
    ensures SoFar(start, db, pairs, items, n + 1, s.(outcomes := s.outcomes + [o]), apply, rank)
  {
    hide Distance, Ranks, ActivePairs, AfterItem;
    PrefixStep(items, n);
  }

  lemma SoFarTaken(start: Db, db: Db, next: Db, pairs: Pairs, items: seq<Item>, n: nat, s: Summary, t: Summary,
        apply: bool, rank: int -> nat, ok: bool)
    requires n < |items| && SoFar(start, db, pairs, items, n, s, apply, rank) && Applies(items[n]) && Live(s, apply)
    requires |t.outcomes| == n + 1
    requires if ok then ActivePairs(next.links) == AfterItem(ActivePairs(db.links), items[n]) else next == db
    requires ok && Ranks(pairs, rank) ==>
              Distance(ActivePairs(next.links), rank) < Distance(ActivePairs(db.links), rank)
    requires t.capped == s.capped && t.outcomes == s.outcomes + [t.outcomes[n]]
    requires Reported(items[n], t.outcomes[n], true)
    requires t.applied == s.applied + (if ok then 1 else 0) && t.failed == s.failed + (if ok then 0 else 1)
    ensures SoFar(start, next, pairs, items, n + 1, t, apply, rank)
  {
    hide Distance, Ranks, ActivePairs, AfterItem;
    PrefixStep(items, n);
  }

  method TickItem(conn: Connection, pairs: Pairs, items: seq<Item>, n: nat, ghost start: Db, s: Summary, apply: bool,
        newPid: string, now: int,
                  ghost rank: int -> nat) returns (t: Summary)
    requires n < |items| && PairsOk(pairs) && SpeaksOf(start.links, pairs, items[n])
    requires Inv(start) && Inv(conn.db) && Evolves(start, conn.db) && newPid !in conn.db.profiles && conn.begun.None?
    requires SoFar(start, conn.db, pairs, items, n, s, apply, rank)
    modifies conn
    ensures Inv(conn.db) && Evolves(start, conn.db) && newPid !in conn.db.profiles && conn.begun.None?
    ensures SoFar(start, conn.db, pairs, items, n + 1, t, apply, rank)
    ensures t.planned == s.planned && t.refused == s.refused && t.capped == s.capped
  {
    hide Inv, Evolves, SoFar, PairsOk, SpeaksOf, Distance, Ranks, ActivePairs, AfterItem;
    var i := items[n];
    ghost var before := conn.db;
    assert |s.outcomes| == n by { SoFarCounts(start, conn.db, pairs, items, n, s, apply, rank); }
    if !Applies(i) {
      t := s.(outcomes := s.outcomes + [Refusal(i.action.why)]);
      SoFarSkipped(start, before, pairs, items, n, s, apply, rank, Refusal(i.action.why));
      return;
    }
    if !Live(s, apply) {
      t := s.(outcomes := s.outcomes + [Planned]);
      SoFarSkipped(start, before, pairs, items, n, s, apply, rank, Planned);
      return;
    }
    var taken := Take(conn, pairs, i, start.links, newPid, now, rank);
    EvolvesChain(start, before, conn.db);
    if taken.Ok? {
      t := s.(applied := s.applied + 1, outcomes := s.outcomes + [Outcome.Applied]);
    } else {
      t := s.(failed := s.failed + 1, outcomes := s.outcomes + [Failed(taken.error)]);
    }
    SoFarTaken(start, before, conn.db, pairs, items, n, s, t, apply, rank, taken.Ok?);
  }

  lemma SoFarCounts(start: Db, db: Db, pairs: Pairs, items: seq<Item>, n: nat, s: Summary, apply: bool,
        rank: int -> nat)
    requires n <= |items| && SoFar(start, db, pairs, items, n, s, apply, rank)
    ensures |s.outcomes| == n
  {
  }

  /** What a whole tick has done, and what it says it did. */
  ghost predicate Ticked(a: Db, b: Db, pairs: Pairs, items: seq<Item>, s: Summary, apply: bool, maxChanges: nat,
        rank: int -> nat) {
    && PlanExact(a, pairs, items)
    && |s.outcomes| == |items| && (forall k :: 0 <= k < |items| ==> Reported(items[k], s.outcomes[k], Live(s, apply)))
    && s.planned == Applicable(items) && s.planned + s.refused == |items|
    && (s.capped <==> apply && s.planned > maxChanges)
    && (if Live(s, apply) then s.applied + s.failed == s.planned else b == a && s.applied == s.failed == 0)
    && (Live(s, apply) && s.failed == 0 ==> AllArrived(a.links, b.links, items))
    && (Ranks(pairs, rank) ==> Distance(ActivePairs(b.links), rank) + s.applied <= Distance(ActivePairs(a.links), rank))
  }

  lemma SoFarAll(start: Db, db: Db, pairs: Pairs, items: seq<Item>, s: Summary, apply: bool, maxChanges: nat,
        rank: int -> nat)
    requires SoFar(start, db, pairs, items, |items|, s, apply, rank) && PlanExact(start, pairs, items)
    requires s.planned == Applicable(items) && s.planned + s.refused == |items|
    requires s.capped <==> apply && s.planned > maxChanges
    ensures Ticked(start, db, pairs, items, s, apply, maxChanges, rank)
  {
    hide Distance, Ranks, ActivePairs, AfterItem, PlanOk, AllArrived, PlanExact, Reported, SoFar, Applicable,
         AfterItems;
    SoFarEnd(start, db, pairs, items, s, apply, rank);
    ExactIsOk(start, pairs, items);
    if Live(s, apply) && s.failed == 0 {
      ArrivedByPlan(start.links, pairs, items, db.links);
    }
  }

  lemma SoFarEnd(start: Db, db: Db, pairs: Pairs, items: seq<Item>, s: Summary, apply: bool, rank: int -> nat)
    requires SoFar(start, db, pairs, items, |items|, s, apply, rank)
    ensures |s.outcomes| == |items|
    ensures forall k :: 0 <= k < |items| ==> Reported(items[k], s.outcomes[k], Live(s, apply))
    ensures !Live(s, apply) ==> db == start && s.applied == s.failed == 0
    ensures Live(s, apply) ==> s.applied + s.failed == Applicable(items)
    ensures Live(s, apply) && s.failed == 0 ==> ActivePairs(db.links) == AfterItems(ActivePairs(start.links), items)
    ensures Ranks(pairs, rank) ==>
              Distance(ActivePairs(db.links), rank) + s.applied <= Distance(ActivePairs(start.links), rank)
  {
    hide Distance, Ranks, ActivePairs, AfterItem, Reported;
    assert items[..|items|] == items;
  }

  lemma SoFarNothing(start: Db, pairs: Pairs, items: seq<Item>, s: Summary, apply: bool, rank: int -> nat)
    requires s.outcomes == [] && s.applied == s.failed == 0
    ensures SoFar(start, start, pairs, items, 0, s, apply, rank)
  {
  }

  /** Plans, and applies the plan unless it is larger than the cap; a plan over the cap
      changes nothing. */
  method Run(conn: Connection, pairs: Pairs, apply: bool, maxChanges: nat, newPid: string, now: int,
        ghost rank: int -> nat)
    returns (s: Summary, items: seq<Item>)
    requires Inv(conn.db) && PairsOk(pairs) && conn.begun.None? && newPid !in conn.db.profiles
    modifies conn
    ensures Ticked(old(conn.db), conn.db, pairs, items, s, apply, maxChanges, rank)
    ensures Inv(conn.db) && Evolves(old(conn.db), conn.db)
  {
    hide Inv, Evolves, UniqueLegacy, PlanExact, SoFar, SpeaksOf, PairsOk, Applicable, Applies, HasItem, Ticked;
    ghost var start := conn.db;
    EvolvesItself(conn.db);
    LegacyIsUnique(conn.db);
    items := Plan(conn.db, pairs);
    ExactSpeaks(start, pairs, items);
    var planned := CountApplicable(items);
    s := Summary(planned, |items| - planned, 0, 0, apply && planned > maxChanges, []);
    SoFarNothing(start, pairs, items, s, apply, rank);
    var n := 0;
    while n < |items|
      invariant 0 <= n <= |items| && SoFar(start, conn.db, pairs, items, n, s, apply, rank)
      invariant s.planned == planned && s.refused == |items| - planned && (s.capped <==> apply && planned > maxChanges)
      invariant Inv(conn.db) && Evolves(start, conn.db) && newPid !in conn.db.profiles && conn.begun.None?
    {
      s := TickItem(conn, pairs, items, n, start, s, apply, newPid, now, rank);
      n := n + 1;
    }
    SoFarAll(start, conn.db, pairs, items, s, apply, maxChanges, rank);
  }

  lemma LegacyIsUnique(db: Db)
    requires Inv(db)
    ensures UniqueLegacy(db.profiles)
  {
  }

  method CountApplicable(items: seq<Item>) returns (n: nat)
    ensures n == Applicable(items) && n <= |items|
  {
    n := 0;
    var k := 0;
    while k < |items|
      invariant 0 <= k <= |items| && n == Applicable(items[..k]) && n <= k
    {
      PrefixStep(items, k);
      if Applies(items[k]) {
        n := n + 1;
      }
      k := k + 1;
    }
    assert items[..k] == items;
  }

  // --------------------------------------------------------- when items succeed

  /** The new link is not there already, exactly as it will be. */
  predicate Grants(links: Links, i: Item, id: int) {
    i.action == Move && !(id in links && links[id] == Link(i.did, i.to, i.linkedAt, None))
  }

  /** What an item that can be begun still needs: the old link is this identity's own;
      for a move, room and nobody else on the new account, and to grant it an enabled
      profile that signs in with this identity and an account that is not someone
      else's, in a place that is free. */
  ghost predicate MayRelink(db: Db, i: Item, id: int, pid: string) {
    && i.link in db.links && db.links[i.link].did == i.did
    && (i.action == Move ==>
          && i.to > 0 && (id in db.links || |db.links| < MAX_LEGACY_LINKS)
          && (forall l :: l in db.links && db.links[l].aid == i.to && db.links[l].revokedAt.None? ==>
                db.links[l].did == i.did)
          && (id !in db.links ==> Key(pid, i.to) !in db.bindings))
    && (Grants(db.links, i, id) ==>
          && GrantAllowed(db, pid, i.to) && pid in db.profiles && !db.profiles[pid].disabled
          && i.did in db.providers && db.providers[i.did] == Provider(pid, false))
  }

  lemma ItemChanges(links: Links, i: Item, id: int, now: int)
    requires StillThere(links, i) && Applies(i) && i.from != i.to && (i.action == Move ==> IsRowFor(links, i, id))
    ensures var after := RowsAfter(links, i, id, now);
            Changed(links, after) == {i.link} + (if Grants(links, i, id) then {id} else {})
  {
    var after := RowsAfter(links, i, id, now);
    forall l ensures l in Changed(links, after) <==> l == i.link || (Grants(links, i, id) && l == id) {
    }
  }

  /** The rows stay valid exactly when there is room and nobody else on the account. */
  lemma RowsStayValid(links: Links, i: Item, id: int, now: int)
    requires LinksValid(links) && ValidDiscordId(i.did) && StillThere(links, i) && links[i.link].did == i.did
    requires Applies(i)
    requires i.from != i.to && (i.action == Move ==> IsRowFor(links, i, id) && (id !in links ==> id > 0))
    ensures LinksValid(RowsAfter(links, i, id, now)) <==>
              (i.action == Move ==>
                 && i.to > 0 && (id in links || |links| < MAX_LEGACY_LINKS)
                 && forall l :: l in links && links[l].aid == i.to && links[l].revokedAt.None? ==>
                      links[l].did == i.did)
    ensures links.Keys <= RowsAfter(links, i, id, now).Keys
  {
    if i.action == Move {
      MoveStaysValid(links, i, id, now);
    } else {
      RevokingStaysValid(links, i.link, now);
    }
  }

  lemma RevokingStaysValid(links: Links, l: int, now: int)
    requires LinksValid(links) && l in links
    ensures LinksValid(links[l := links[l].(revokedAt := Some(now))])
  {
    assert |links[l := links[l].(revokedAt := Some(now))]| == |links|;
  }

  lemma MoveStaysValid(links: Links, i: Item, id: int, now: int)
    requires LinksValid(links) && ValidDiscordId(i.did) && StillThere(links, i) && links[i.link].did == i.did
    requires i.action == Move && i.from != i.to && IsRowFor(links, i, id) && (id !in links ==> id > 0)
    ensures LinksValid(RowsAfter(links, i, id, now)) <==>
              && i.to > 0 && (id in links || |links| < MAX_LEGACY_LINKS)
              && forall l :: l in links && links[l].aid == i.to && links[l].revokedAt.None? ==> links[l].did == i.did
  {
    var after := RowsAfter(links, i, id, now);
    assert |after| == if id in links then |links| else |links| + 1;
    MovePairs(links, i, id, now);
    MoveActive(links, i, id, now);
    assert RowsValidIn(after, after.Keys) <==> i.to > 0 by {
      assert after[id].aid == i.to && id in after.Keys;
      assert RowValid(i.link, links[i.link]);
    }
    hide RowsAfter, PairsUniqueIn, ActiveOnceIn, RowsValidIn;
  }

  lemma MovePairs(links: Links, i: Item, id: int, now: int)
    requires LinksValid(links) && StillThere(links, i) && i.action == Move && i.from != i.to && IsRowFor(links, i, id)
    ensures var after := RowsAfter(links, i, id, now); PairsUniqueIn(after, after.Keys)
  {
    assert PairsUniqueIn(links, links.Keys);
    WrittenPairs(links, i, id);
    hide LinksValid, ActivePairs;
  }

  lemma MoveActive(links: Links, i: Item, id: int, now: int)
    requires LinksValid(links) && StillThere(links, i) && i.action == Move && i.from != i.to && IsRowFor(links, i, id)
    ensures var after := RowsAfter(links, i, id, now);
            ActiveOnceIn(after, after.Keys) <==>
              forall l :: l in links && links[l].aid == i.to && links[l].revokedAt.None? ==> links[l].did == i.did
  {
    var after := RowsAfter(links, i, id, now);
    assert PairsUniqueIn(links, links.Keys) && ActiveOnceIn(links, links.Keys);
    hide LinksValid;
    assert after[id] == Link(i.did, i.to, i.linkedAt, None);
    if l :| l in links && links[l].aid == i.to && links[l].revokedAt.None? && links[l].did != i.did {
      assert l != id && l != i.link && after[l] == links[l];
      assert l in after.Keys && id in after.Keys;
    } else {
      forall l, m | l in after && m in after && after[l].aid == after[m].aid
                    && after[l].revokedAt.None? && after[m].revokedAt.None?
        ensures l == m
      {
        assert l == id || (l in links && links[l] == after[l]);
        assert m == id || (m in links && links[m] == after[m]);
      }
    }
  }

  /** An item succeeds exactly when it can be begun and its conditions hold. */
  lemma ItemAccepted(db: Db, i: Item, id: int, newPid: string, pid: string, now: int)
    requires Inv(db) && MayBegin(db, i) && i.from != i.to && newPid !in db.profiles
    requires IsChosen(db.profiles, i.did, newPid, pid)
    requires i.action == Move ==> IsRowFor(db.links, i, id) && (id !in db.links ==> id > 0)
    ensures Acceptable(db, RowsAfter(db.links, i, id, now), ChangeOf(db, i), pid) <==> MayRelink(db, i, id, pid)
  {
    hide Inv, LinksValid, RowsAfter, Acceptable, IsChosen, ValidDiscordId, IsRowFor;
    if db.links[i.link].did == i.did {
      OwnItemAccepted(db, i, id, newPid, pid, now);
    } else {
      ForeignItemRefused(db, i, id, pid, now);
    }
  }

  /** The row must be the identity's own. */
  lemma ForeignItemRefused(db: Db, i: Item, id: int, pid: string, now: int)
    requires StillThere(db.links, i) && Applies(i) && i.from != i.to && (i.action == Move ==> IsRowFor(db.links, i, id))
    requires db.links[i.link].did != i.did
    ensures !Acceptable(db, RowsAfter(db.links, i, id, now), ChangeOf(db, i), pid)
  {
    var after := RowsAfter(db.links, i, id, now);
    ItemChanges(db.links, i, id, now);
    assert i.link in Changed(db.links, after) && after[i.link].did != i.did;
    hide LinksValid, RowsAfter, ProfileReady, GrantsAllowed, PlacesFree, Changed, Granting;
  }

  lemma OwnItemAccepted(db: Db, i: Item, id: int, newPid: string, pid: string, now: int)
    requires Inv(db) && MayBegin(db, i) && i.from != i.to && newPid !in db.profiles
    requires IsChosen(db.profiles, i.did, newPid, pid)
    requires db.links[i.link].did == i.did
    requires i.action == Move ==> IsRowFor(db.links, i, id) && (id !in db.links ==> id > 0)
    ensures Acceptable(db, RowsAfter(db.links, i, id, now), ChangeOf(db, i), pid) <==> MayRelink(db, i, id, pid)
  {
    var links, after := db.links, RowsAfter(db.links, i, id, now);
    var p := KnownLinkHasProfile(db, i.link);
    assert UniqueLegacy(db.profiles);
    assert IsProfileOf(db.profiles, pid, i.did);
    OwnProfileReady(db, i, id, pid, now);
    ItemChanges(links, i, id, now);
    RowsStayValid(links, i, id, now);
    OwnItemRows(db, i, id, pid, now);
    hide Inv, LinksValid, RowsAfter, ProfileReady, GrantsAllowed, PlacesFree, WithinIdentity, Granting,
         ValidDiscordId, UniqueLegacy;
  }

  lemma OwnProfileReady(db: Db, i: Item, id: int, pid: string, now: int)
    requires UniqueLegacy(db.profiles) && IsProfileOf(db.profiles, pid, i.did)
    requires StillThere(db.links, i) && Applies(i) && i.from != i.to && (i.action == Move ==> IsRowFor(db.links, i, id))
    ensures var after := RowsAfter(db.links, i, id, now);
            && (Granting(db.links, after) <==> Grants(db.links, i, id))
            && (ProfileReady(db, after, i.did) <==>
                  (Grants(db.links, i, id) ==>
                     && !db.profiles[pid].disabled && i.did in db.providers
                     && db.providers[i.did] == Provider(pid, false)))
  {
    var after := RowsAfter(db.links, i, id, now);
    ItemChanges(db.links, i, id, now);
    assert Granting(db.links, after) <==> Grants(db.links, i, id) by {
      if Grants(db.links, i, id) {
        assert id in Changed(db.links, after) && after[id].revokedAt.None?;
      }
    }
    forall p | IsProfileOf(db.profiles, p, i.did) ensures p == pid {
      SameProfile(db.profiles, p, pid, i.did);
    }
    hide RowsAfter, Changed, Granting, Grants, UniqueLegacy;
  }

  lemma OwnItemRows(db: Db, i: Item, id: int, pid: string, now: int)
    requires StillThere(db.links, i) && Applies(i) && i.from != i.to && (i.action == Move ==> IsRowFor(db.links, i, id))
    requires db.links[i.link].did == i.did
    ensures var after := RowsAfter(db.links, i, id, now);
            && WithinIdentity(db.links, after, i.did)
            && (GrantsAllowed(db, after, pid) <==> (Grants(db.links, i, id) ==> GrantAllowed(db, pid, i.to)))
            && (PlacesFree(db, after, pid) <==>
                  (i.action == Move && id !in db.links ==> Key(pid, i.to) !in db.bindings))
  {
    var after := RowsAfter(db.links, i, id, now);
    ItemChanges(db.links, i, id, now);
    if Grants(db.links, i, id) {
      assert id in Changed(db.links, after) && after[id] == Link(i.did, i.to, i.linkedAt, None);
    }
  }

  // ------------------------------------------------------------------ a chain

  /** An identity that is linked to account 1 and to account 2, and nothing else. */
  function Chained(): Db {
    Db(false, map[1 := Link("7", 1, 0, None), 2 := Link("7", 2, 0, None)], map["p" := Profile(Some("7"), false)],
       map["7" := Provider("p", false)],
       map[Key("p", 1) := Binding(Some(1), 0, None, 1), Key("p", 2) := Binding(Some(2), 0, None, 1)],
       map[], map[], map[], map[], map[], map[], {})
  }

  lemma ChainedMirrors()
    ensures var db := Chained(); Mirror(db.links, db.profiles, db.bindings) && UniqueActive(db.bindings)
  {
    var db := Chained();
    assert MirroredBy(db.links, db.bindings, 1, "p") && MirroredBy(db.links, db.bindings, 2, "p");
  }

  lemma ChainedProfiles()
    ensures var db := Chained(); UniqueLegacy(db.profiles) && ProvidersOk(db.providers, db.profiles)
  {
  }

  lemma NobodyYet(db: Db)
    requires db.sessions == map[] && db.passkeys == map[] && db.challenges == map[] && db.users == map[]
    ensures SessionsBound(db.sessions, db.bindings) && CredentialsHold(db) && TokensOk(db.sessions, db.drawn)
    ensures PasskeysBounded(db.passkeys) && ChallengesOk(db.challenges, db.drawn) && UniqueNames(db.users)
  {
    forall pid ensures |ActiveKeys(db.passkeys, pid)| <= 8 {
      assert ActiveKeys(db.passkeys, pid) == {};
    }
  }

  lemma ChainedIsSound()
    ensures Inv(Chained())
  {
    var db := Chained();
    assert References(db) && NotYet(db);
    ChainedMirrors();
    ChainedProfiles();
    NobodyYet(db);
    hide Chained, Mirror, UniqueActive, UniqueLegacy, ProvidersOk, References, NotYet, SessionsBound, CredentialsHold;
    hide TokensOk, PasskeysBounded, ChallengesOk, UniqueNames, OwnersHold;
  }

  /** The one plan there is when 1 has gone to 2 and 2 to 3: the link on 1 is retired
      in favour of the one on 2, which itself moves on. */
  function ChainPlan(): seq<Item> {
    [Item(1, "7", 1, 2, 0, Retire), Item(2, "7", 2, 3, 0, Move)]
  }

  lemma ChainedActive()
    ensures ActivePairs(Chained().links) == {("7", 1), ("7", 2)} && ActiveIds(Chained().links) == {1, 2}
  {
    var links := Chained().links;
    assert links[1].revokedAt.None? && links[2].revokedAt.None?;
    assert ("7", 1) in ActivePairs(links) && ("7", 2) in ActivePairs(links);
  }

  lemma ChainIsPlanned()
    ensures PlanExact(Chained(), map[1 := {2}, 2 := {3}], ChainPlan())
    ensures forall l :: l in ActiveIds(Chained().links) ==> HasItem(ChainPlan(), l)
  {
    var db, items := Chained(), ChainPlan();
    ChainedActive();
    assert Claimed(ActivePairs(db.links), items, 0) && !Claimed(ActivePairs(db.links), items, 1);
    assert TargetOwn(ActivePairs(db.links), items, 0) && TargetOwn(ActivePairs(db.links), items, 1);
    hide TargetOwn, Claimed, ActivePairs;
    assert Judged(db, map[1 := {2}, 2 := {3}], items, 0) && Judged(db, map[1 := {2}, 2 := {3}], items, 1);
    assert items[0].link == 1 && items[1].link == 2;
  }

  /** On a chain of transfers an identity need not end where its item sent it: from a
      sound database the plan is two items, and after both of them nobody is linked to
      account 2, where the first one pointed. */
  lemma ChainsOvershoot()
    ensures var db, pairs, items := Chained(), map[1 := {2}, 2 := {3}], ChainPlan();
            && Inv(db) && PairsOk(pairs) && PlanExact(db, pairs, items)
            && (forall l :: l in ActiveIds(db.links) && db.links[l].aid in pairs ==> HasItem(items, l))
            && Applies(items[0]) && items[0].to == 2 && forall d :: (d, 2) !in AfterItems(ActivePairs(db.links), items)
  {
    ChainedIsSound();
    ChainIsPlanned();
    ChainedActive();
    hide Inv, PlanExact, ActivePairs;
    var items := ChainPlan();
    assert items[..1] == [items[0]] && items[..1][..0] == [];
    assert AfterItems({("7", 1), ("7", 2)}, items[..1]) == {("7", 2)};
    assert AfterItems({("7", 1), ("7", 2)}, items) == {("7", 3)};
  }
}
