/** The passes of `parse_revenuecat_subscriber`, proved against the rule of AccessRule. */
module SubscriberParser {
  import opened Prelude
  import opened Evidence
  import opened AccessRule

  // ---------------------------------------------------------------- the payload

  /** A subscription value read as a one-record list. */
  function Wrapped(subscriptions: Table<Source>): (t: Table<Shelf>)
    ensures |t| == |subscriptions|
    ensures forall i :: 0 <= i < |t| ==> t[i] == (subscriptions[i].0, Shelf([subscriptions[i].1]))
  {
    seq(|subscriptions|, i requires 0 <= i < |subscriptions| => (subscriptions[i].0, Shelf([subscriptions[i].1])))
  }

  function ShelfItems(product: string, shelf: Shelf, oneTime: bool): seq<Item> {
    if shelf.NotAList? then []
    else seq(|shelf.records|, i requires 0 <= i < |shelf.records| => Item(product, oneTime, i, shelf.records[i]))
  }

  /** The records in the order the nested loops visit them: by product, then by position. */
  function ItemsIn(shelves: seq<(string, Shelf)>, oneTime: bool): seq<Item> {
    if shelves == [] then []
    else
      var last := |shelves| - 1;
      ItemsIn(shelves[..last], oneTime) + ShelfItems(shelves[last].0, shelves[last].1, oneTime)
  }

  ghost predicate OnShelf(shelves: seq<(string, Shelf)>, a: int, it: Item) {
    && 0 <= a < |shelves|
    && shelves[a].0 == it.product
    && shelves[a].1.Shelf?
    && it.index < |shelves[a].1.records|
    && it.source == shelves[a].1.records[it.index]
  }

  lemma {:induction false} ItemsInMembers(shelves: seq<(string, Shelf)>, oneTime: bool)
    requires DistinctKeys(shelves)
    ensures forall it :: it in ItemsIn(shelves, oneTime) <==> it.oneTime == oneTime && exists a :: OnShelf(shelves, a, it)
    ensures Distinct(ItemsIn(shelves, oneTime))
  {
    if shelves == [] {
    } else {
      var last := |shelves| - 1;
      var init := shelves[..last];
      ItemsInMembers(init, oneTime);
      var tail := ShelfItems(shelves[last].0, shelves[last].1, oneTime);
      forall it
        ensures it in ItemsIn(shelves, oneTime) <==> it.oneTime == oneTime && exists a :: OnShelf(shelves, a, it)
      {
        if it in ItemsIn(init, oneTime) {
          var a :| OnShelf(init, a, it);
          assert OnShelf(shelves, a, it);
        } else if it in tail {
          assert OnShelf(shelves, last, it);
        }
        if it.oneTime == oneTime && exists a :: OnShelf(shelves, a, it) {
          var a :| OnShelf(shelves, a, it);
          if a == last {
            assert tail[it.index] == it;
          } else {
            assert OnShelf(init, a, it);
          }
        }
      }
      forall it | it in ItemsIn(init, oneTime)
        ensures it !in tail
      {
        var a :| OnShelf(init, a, it);
      }
    }
  }

  ghost function View(
    entitlements: Table<Entitlement>,
    subscriptions: Table<Source>,
    nonSubscriptions: Table<Shelf>
  ): Customer
  {
    Customer(AsMap(entitlements), AsMap(subscriptions), AsMap(nonSubscriptions))
  }

  /** The visited records are exactly the customer's. */
  lemma ItemsAreHeld(c: Customer, subscriptions: Table<Source>, nonSubscriptions: Table<Shelf>)
    requires c.subscriptions == AsMap(subscriptions) && c.nonSubscriptions == AsMap(nonSubscriptions)
    ensures forall it :: it in ItemsIn(Wrapped(subscriptions), false) <==> Holds(c, it) && !it.oneTime
    ensures forall it :: it in ItemsIn(nonSubscriptions, true) <==> Holds(c, it) && it.oneTime
    ensures Distinct(ItemsIn(Wrapped(subscriptions), false)) && Distinct(ItemsIn(nonSubscriptions, true))
  {
    ItemsInMembers(Wrapped(subscriptions), false);
    ItemsInMembers(nonSubscriptions, true);
    forall it
      ensures (exists a :: OnShelf(Wrapped(subscriptions), a, it)) && !it.oneTime <==> Holds(c, it) && !it.oneTime
    {
      if !it.oneTime && Holds(c, it) {
        var a :| 0 <= a < |subscriptions| && subscriptions[a].0 == it.product;
        assert OnShelf(Wrapped(subscriptions), a, it);
      }
    }
    forall it
      ensures (exists a :: OnShelf(nonSubscriptions, a, it)) && it.oneTime <==> Holds(c, it) && it.oneTime
    {
      if it.oneTime && Holds(c, it) {
        var a :| 0 <= a < |nonSubscriptions| && nonSubscriptions[a].0 == it.product;
        assert OnShelf(nonSubscriptions, a, it);
      }
    }
  }

  // -------------------------------------------------------------- identity pass

  predicate IdentifiedItem(it: Item) {
    Identified(it.product, it.source)
  }

  function ItemIdentity(it: Item): Identity
    requires IdentifiedItem(it)
  {
    IdentityOf(it.product, it.source)
  }

  /** `_ensure_unique_evidence_identities`: the pass goes through exactly when no two records collide. */
  method EnsureUniqueIdentities(items: seq<Item>) returns (ok: bool)
    ensures ok <==>
      && (forall k :: 0 <= k < |items| ==> IdentifiedItem(items[k]))
      && (forall j, k :: 0 <= j < k < |items| ==> ItemIdentity(items[j]) != ItemIdentity(items[k]))
  {
    var seen: set<Identity> := {};
    for i := 0 to |items|
      invariant forall k :: 0 <= k < i ==> IdentifiedItem(items[k])
      invariant forall k :: 0 <= k < i ==> ItemIdentity(items[k]) in seen
      invariant forall id :: id in seen ==> exists k :: 0 <= k < i && ItemIdentity(items[k]) == id
      invariant forall j, k :: 0 <= j < k < i ==> ItemIdentity(items[j]) != ItemIdentity(items[k])
    {
      if items[i].source.NotARecord? || !NamesProduct(items[i].source.productId, items[i].product) {
        return false;
      }
      var purchaseAt := ReadTime(items[i].source.purchaseDate, true);
      if purchaseAt.Rejected? || purchaseAt.value.None? {
        return false;
      }
      var evidence := Identity(items[i].product, purchaseAt.value.value);
      if evidence in seen {
        return false;
      }
      seen := seen + {evidence};
    }
    return true;
  }

  // ------------------------------------------------------------------ ownership

  function OwnersAt(owners: map<Identity, set<string>>, id: Identity): set<string> {
    if id in owners then owners[id] else {}
  }

  /** The dictionary `entitlement_owners`, which later passes update in place. */
  class Ownership {
    var owners: map<Identity, set<string>>

    constructor ()
      ensures owners == map[]
    {
      owners := map[];
    }

    /** `owners.get(evidence, set())` */
    function Of(id: Identity): set<string>
      reads this
    {
      OwnersAt(owners, id)
    }

    /** `owners.setdefault(evidence, set()).add(name)` */
    method Add(id: Identity, name: string)
      modifies this
      ensures forall k :: OwnersAt(owners, k) == OwnersAt(old(owners), k) + (if k == id then {name} else {})
    {
      owners := owners[id := Of(id) + {name}];
    }

    /** `owners[evidence] = {name}` */
    method Claim(id: Identity, name: string)
      modifies this
      ensures forall k :: OwnersAt(owners, k) == if k == id then {name} else OwnersAt(old(owners), k)
    {
      owners := owners[id := {name}];
    }
  }

  ghost predicate OwnedBy(entries: seq<(string, Entitlement)>, n: nat, id: Identity, name: string) {
    exists j :: 0 <= j < n && j < |entries| && Keyed(entries[j].1) && entries[j].0 == name && KeyOf(entries[j].1) == id
  }

  ghost predicate OwnersUpTo(entries: seq<(string, Entitlement)>, n: nat, owners: map<Identity, set<string>>) {
    forall id, name :: name in OwnersAt(owners, id) <==> OwnedBy(entries, n, id, name)
  }

  lemma OwnersStep(
    entries: seq<(string, Entitlement)>, n: nat, before: map<Identity, set<string>>, after: map<Identity, set<string>>)
    requires n < |entries| && Keyed(entries[n].1)
    requires OwnersUpTo(entries, n, before)
    requires forall id ::
      OwnersAt(after, id) == OwnersAt(before, id) + (if id == KeyOf(entries[n].1) then {entries[n].0} else {})
    ensures OwnersUpTo(entries, n + 1, after)
  {
    forall id, name
      ensures name in OwnersAt(after, id) <==> OwnedBy(entries, n + 1, id, name)
    {
    }
  }

  lemma OwnersComplete(entitlements: Table<Entitlement>, c: Customer, owners: map<Identity, set<string>>)
    requires c.entitlements == AsMap(entitlements) && AllKeyed(c)
    requires OwnersUpTo(entitlements, |entitlements|, owners)
    ensures forall id :: OwnersAt(owners, id) == Owners(c, id)
  {
    forall id, name
      ensures name in OwnersAt(owners, id) <==> name in Owners(c, id)
    {
      if name in Owners(c, id) {
        var j :| 0 <= j < |entitlements| && entitlements[j].0 == name;
      }
    }
  }

  /** `_entitlement_owners`: each purchase maps to exactly the entitlements that rest on it. */
  method EntitlementOwners(entitlements: Table<Entitlement>, ghost c: Customer)
    returns (r: Outcome<Ownership>)
    requires c.entitlements == AsMap(entitlements)
    ensures r.Accepted? <==> AllKeyed(c)
    ensures r.Accepted? ==> fresh(r.value) && forall id :: OwnersAt(r.value.owners, id) == Owners(c, id)
  {
    var ownership := new Ownership();
    for i := 0 to |entitlements|
      invariant fresh(ownership)
      invariant forall j :: 0 <= j < i ==> Keyed(entitlements[j].1)
      invariant OwnersUpTo(entitlements, i, ownership.owners)
    {
      hide OwnersUpTo, OwnersAt;
      var e := entitlements[i].1;
      assert c.entitlements[entitlements[i].0] == e;
      if e.NotAnEntitlement? {
        return Rejected;
      }
      var product := ReadText(e.productId);
      var purchaseAt := ReadTime(e.purchaseDate, true);
      if product.Rejected? || purchaseAt.Rejected? || purchaseAt.value.None? {
        return Rejected;
      }
      ghost var before := ownership.owners;
      ownership.Add(Identity(product.value, purchaseAt.value.value), entitlements[i].0);
      OwnersStep(entitlements, i, before, ownership.owners);
    }
    OwnersComplete(entitlements, c, ownership.owners);
    return Accepted(ownership);
  }

  // ------------------------------------------------------------- stray evidence

  predicate ReadAside(it: Item, matched: Identity, owners: set<string>)
    requires IdentifiedItem(it)
  {
    ReadableAside(it.source) && (ItemIdentity(it) == matched || |owners| == 1 || DatesReadable(it.source))
  }

  predicate StrayLive(it: Item, matched: Identity, owners: set<string>, now: Instant)
    requires IdentifiedItem(it)
  {
    ItemIdentity(it) != matched && |owners| != 1 && Live(it.source, now)
  }

  /** `_has_unmatched_active_evidence` over one container. */
  method HasUnmatchedActiveEvidence(items: seq<Item>, matched: Identity, ownership: Ownership, now: Instant)
    returns (r: Outcome<bool>)
    requires forall k :: 0 <= k < |items| ==> IdentifiedItem(items[k])
    ensures r.Accepted? <==>
      forall k :: 0 <= k < |items| ==> ReadAside(items[k], matched, ownership.Of(ItemIdentity(items[k])))
    ensures r.Accepted? ==>
      (r.value <==> exists k :: 0 <= k < |items| && StrayLive(items[k], matched, ownership.Of(ItemIdentity(items[k])), now))
  {
    var unmatched := false;
    for i := 0 to |items|
      invariant forall k :: 0 <= k < i ==> ReadAside(items[k], matched, ownership.Of(ItemIdentity(items[k])))
      invariant unmatched <==>
        exists k :: 0 <= k < i && StrayLive(items[k], matched, ownership.Of(ItemIdentity(items[k])), now)
    {
      var source := items[i].source;
      if source.isSandbox.None? || ReadText(source.store).Rejected? {
        return Rejected;
      }
      var evidence := ItemIdentity(items[i]);
      if evidence == matched || |ownership.Of(evidence)| == 1 {
        continue;
      }
      var expiresAt := ReadTime(source.expiresDate, false);
      var graceAt := ReadTime(source.graceDate, false);
      if expiresAt.Rejected? || graceAt.Rejected? {
        return Rejected;
      }
      var refundedAt := ReadTime(source.refundedAt, false);
      if refundedAt.Rejected? {
        return Rejected;
      }
      if refundedAt.value.Some? {
        continue;
      }
      var revokedAt := ReadTime(source.revokedAt, false);
      if revokedAt.Rejected? {
        return Rejected;
      }
      if revokedAt.value.Some? {
        continue;
      }
      if Unexpired(EffectiveExpiry(expiresAt.value, graceAt.value), now) {
        unmatched := true;
      }
    }
    return Accepted(unmatched);
  }

  /** Both containers; either one's failure or stray record rejects the subscriber. */
  method EvidenceIsUnambiguous(
    subscriptionItems: seq<Item>,
    oneTimeItems: seq<Item>,
    matched: Identity,
    ownership: Ownership,
    now: Instant,
    production: bool,
    ghost c: Customer
  ) returns (ok: bool)
    requires AllIdentified(c) && AllKeyed(c)
    requires forall it :: it in subscriptionItems <==> Holds(c, it) && !it.oneTime
    requires forall it :: it in oneTimeItems <==> Holds(c, it) && it.oneTime
    requires forall id :: OwnersAt(ownership.owners, id) == ExtendedOwners(c, production, now, id)
    ensures ok <==> NoStrayEvidence(c, production, now, matched)
  {
    var first := HasUnmatchedActiveEvidence(subscriptionItems, matched, ownership, now);
    if first.Rejected? || first.value {
      ghost var k :| 0 <= k < |subscriptionItems|
        && var it := subscriptionItems[k];
           var owners := ownership.Of(ItemIdentity(it));
           !ReadAside(it, matched, owners) || StrayLive(it, matched, owners, now);
      assert Holds(c, subscriptionItems[k]);
      return false;
    }
    var second := HasUnmatchedActiveEvidence(oneTimeItems, matched, ownership, now);
    if second.Rejected? || second.value {
      ghost var k :| 0 <= k < |oneTimeItems|
        && var it := oneTimeItems[k];
           var owners := ownership.Of(ItemIdentity(it));
           !ReadAside(it, matched, owners) || StrayLive(it, matched, owners, now);
      assert Holds(c, oneTimeItems[k]);
      return false;
    }
    forall it | Holds(c, it)
      ensures ReadableAside(it.source)
      ensures var id := ItemIdentity(it);
              id == matched || |ExtendedOwners(c, production, now, id)| == 1
              || (DatesReadable(it.source) && !Live(it.source, now))
    {
      if it.oneTime {
        var k :| 0 <= k < |oneTimeItems| && oneTimeItems[k] == it;
      } else {
        var k :| 0 <= k < |subscriptionItems| && subscriptionItems[k] == it;
      }
    }
    return true;
  }

  // ------------------------------------------------------- promotional grants

  function GrantEntry(it: Item): (Option<Instant>, string)
    requires it.source.Source?
  {
    (OwnExpiry(it.source), it.product)
  }

  /** `at` lists, in order, the places of the active grants among the first n records. */
  ghost predicate GrantPlaces(
    items: seq<Item>, n: nat, production: bool, now: Instant, at: seq<nat>, grants: seq<(Option<Instant>, string)>)
  {
    && n <= |items|
    && |grants| == |at|
    && (forall k :: 0 <= k < |at| ==>
          at[k] < n && ActiveGrant(items[at[k]], production, now) && grants[k] == GrantEntry(items[at[k]]))
    && (forall j, k :: 0 <= j < k < |at| ==> at[j] < at[k])
    && (forall b :: 0 <= b < n && ActiveGrant(items[b], production, now) ==> b in at)
  }

  /** One turn of the promotional loop: None when the subscription is no active grant. */
  method ReadPromo(it: Item, production: bool, now: Instant) returns (r: Outcome<Option<(Option<Instant>, string)>>)
    requires IdentifiedItem(it) && !it.oneTime
    ensures r.Accepted? <==>
      (NamedPromo(it) ==> ReadText(it.source.store).Accepted?) && (Grant(it) ==> GrantReadable(it))
    ensures r.Accepted? ==> r.value == if ActiveGrant(it, production, now) then Some(GrantEntry(it)) else None
  {
    if !(PROMO_PREFIX <= it.product) {
      return Accepted(None);
    }
    var store := ReadText(it.source.store);
    if store.Rejected? {
      return Rejected;
    }
    if !PromotionalStore(store.value) {
      return Accepted(None);
    }
    var purchaseAt := it.source.purchaseDate.at;
    var expiresAt := ReadTime(it.source.expiresDate, true);
    var graceAt := ReadTime(it.source.graceDate, false);
    if expiresAt.Rejected? || graceAt.Rejected? {
      return Rejected;
    }
    var candidate := ParseCandidate(it.source, it.product, purchaseAt, expiresAt.value, graceAt.value, true);
    if candidate.Rejected? {
      return Rejected;
    }
    CandidateMeaning(it.source, it.product, purchaseAt, expiresAt.value, graceAt.value, true);
    if candidate.value.Some? {
      var parsed := candidate.value.value;
      if !parsed.blocked && (!production || !parsed.sandbox) && Unexpired(parsed.expiresAt, now) {
        return Accepted(Some((parsed.expiresAt, it.product)));
      }
    }
    return Accepted(None);
  }

  predicate PromoReads(it: Item)
    requires IdentifiedItem(it)
  {
    (NamedPromo(it) ==> ReadText(it.source.store).Accepted?) && (Grant(it) ==> GrantReadable(it))
  }

  /** A grant may claim a purchase nobody else owns; the claim replaces the owners in place. */
  method ClaimGrant(it: Item, ownership: Ownership, production: bool, now: Instant)
    returns (r: Outcome<Option<(Option<Instant>, string)>>)
    requires IdentifiedItem(it) && !it.oneTime
    modifies ownership
    ensures r.Accepted? <==> PromoReads(it) && MayClaim(it, production, now, old(ownership.owners))
    ensures r.Accepted? ==> r.value == if ActiveGrant(it, production, now) then Some(GrantEntry(it)) else None
    ensures r.Accepted? ==> AfterClaim(it, production, now, old(ownership.owners), ownership.owners)
  {
    r := ReadPromo(it, production, now);
    if r.Accepted? && r.value.Some? {
      var evidence := ItemIdentity(it);
      var owners := ownership.Of(evidence);
      if owners != {} && owners != {REMOVE_ADS} {
        NotWithin(owners, REMOVE_ADS);
        return Rejected;
      }
      ownership.Claim(evidence, REMOVE_ADS);
    }
  }

  lemma NotWithin(s: set<string>, name: string)
    ensures s <= {name} ==> s == {} || s == {name}
  {
    if s != {} && s <= {name} {
      var x :| x in s;
      assert s == {name};
    }
  }

  ghost predicate MayClaim(it: Item, production: bool, now: Instant, owners: map<Identity, set<string>>)
    requires IdentifiedItem(it)
  {
    ActiveGrant(it, production, now) ==> OwnersAt(owners, ItemIdentity(it)) <= {REMOVE_ADS}
  }

  ghost predicate AfterClaim(
    it: Item, production: bool, now: Instant,
    before: map<Identity, set<string>>, after: map<Identity, set<string>>)
    requires IdentifiedItem(it)
  {
    forall id :: OwnersAt(after, id) ==
      if ActiveGrant(it, production, now) && id == ItemIdentity(it) then {REMOVE_ADS} else OwnersAt(before, id)
  }

  ghost predicate AllOf(items: seq<Item>, c: Customer, oneTime: bool) {
    && Distinct(items)
    && forall it :: it in items <==> Holds(c, it) && it.oneTime == oneTime
  }

  /** What the promotional loop has established and claimed after n subscriptions. */
  ghost predicate ClaimedUpTo(
    items: seq<Item>, n: nat, production: bool, now: Instant, c: Customer, owners: map<Identity, set<string>>)
    requires AllIdentified(c) && AllKeyed(c) && AllOf(items, c, false) && n <= |items|
  {
    && (forall k :: 0 <= k < n ==> Holds(c, items[k]) && PromoReads(items[k]))
    && (forall k :: 0 <= k < n && ActiveGrant(items[k], production, now) ==>
          Owners(c, ItemIdentity(items[k])) <= {REMOVE_ADS})
    && (forall id :: OwnersAt(owners, id) ==
          if GrantedBefore(items, n, production, now, id, c) then {REMOVE_ADS} else Owners(c, id))
  }

  ghost predicate GrantedBefore(items: seq<Item>, n: nat, production: bool, now: Instant, id: Identity, c: Customer)
    requires AllIdentified(c) && AllOf(items, c, false) && n <= |items|
  {
    exists k :: 0 <= k < n && Holds(c, items[k]) && ActiveGrant(items[k], production, now) && ItemIdentity(items[k]) == id
  }

  /** The invariant of the promotional loop. */
  ghost predicate ClaimLoop(
    items: seq<Item>, n: nat, production: bool, now: Instant, c: Customer,
    owners: map<Identity, set<string>>, at: seq<nat>, grants: seq<(Option<Instant>, string)>)
    requires AllIdentified(c) && AllKeyed(c) && AllOf(items, c, false) && n <= |items|
  {
    && ClaimedUpTo(items, n, production, now, c, owners)
    && GrantPlaces(items, n, production, now, at, grants)
  }

  lemma ClaimStart(items: seq<Item>, production: bool, now: Instant, c: Customer, owners: map<Identity, set<string>>)
    requires AllIdentified(c) && AllKeyed(c) && AllOf(items, c, false)
    requires forall id :: OwnersAt(owners, id) == Owners(c, id)
    ensures ClaimLoop(items, 0, production, now, c, owners, [], [])
  {
  }

  lemma ClaimStep(
    items: seq<Item>, n: nat, production: bool, now: Instant, c: Customer,
    before: map<Identity, set<string>>, after: map<Identity, set<string>>)
    requires AllIdentified(c) && AllKeyed(c) && DistinctEvidence(c) && AllOf(items, c, false) && n < |items|
    requires ClaimedUpTo(items, n, production, now, c, before)
    requires IdentifiedItem(items[n]) && PromoReads(items[n]) && MayClaim(items[n], production, now, before)
    requires AfterClaim(items[n], production, now, before, after)
    ensures ClaimedUpTo(items, n + 1, production, now, c, after)
  {
    hide PromoReads, Grant;
    assert items[n] in items;
    FreshIdentity(items, n, production, now, c);
    forall id
      ensures GrantedBefore(items, n + 1, production, now, id, c) <==>
        GrantedBefore(items, n, production, now, id, c)
        || (ActiveGrant(items[n], production, now) && ItemIdentity(items[n]) == id)
    {
    }
  }

  lemma FreshIdentity(items: seq<Item>, n: nat, production: bool, now: Instant, c: Customer)
    requires AllIdentified(c) && DistinctEvidence(c) && AllOf(items, c, false) && n < |items|
    ensures Holds(c, items[n]) && !GrantedBefore(items, n, production, now, ItemIdentity(items[n]), c)
  {
    assert items[n] in items;
  }

  lemma PlacesStep(
    items: seq<Item>, n: nat, production: bool, now: Instant, at: seq<nat>, grants: seq<(Option<Instant>, string)>)
    requires n < |items| && GrantPlaces(items, n, production, now, at, grants)
    ensures if ActiveGrant(items[n], production, now)
            then GrantPlaces(items, n + 1, production, now, at + [n], grants + [GrantEntry(items[n])])
            else GrantPlaces(items, n + 1, production, now, at, grants)
  {
    hide Usable, Grant, OwnExpiry;
    assert n in at + [n];
    assert forall b :: b in at ==> b in at + [n];
  }

  lemma ClaimFails(
    items: seq<Item>, n: nat, production: bool, now: Instant, c: Customer, owners: map<Identity, set<string>>)
    requires AllIdentified(c) && AllKeyed(c) && DistinctEvidence(c) && AllOf(items, c, false) && n < |items|
    requires ClaimedUpTo(items, n, production, now, c, owners)
    requires IdentifiedItem(items[n]) && !(PromoReads(items[n]) && MayClaim(items[n], production, now, owners))
    ensures !GrantsInOrder(c, production, now)
  {
    assert items[n] in items;
    FreshIdentity(items, n, production, now, c);
  }

  lemma ClaimsDone(
    items: seq<Item>, production: bool, now: Instant, c: Customer,
    owners: map<Identity, set<string>>, at: seq<nat>, grants: seq<(Option<Instant>, string)>)
    requires AllIdentified(c) && AllKeyed(c) && AllOf(items, c, false)
    requires ClaimLoop(items, |items|, production, now, c, owners, at, grants)
    ensures GrantPlaces(items, |items|, production, now, at, grants)
    ensures GrantsInOrder(c, production, now)
    ensures forall id :: OwnersAt(owners, id) == ClaimedOwners(c, production, now, id)
  {
    forall it | Holds(c, it) && !it.oneTime
      ensures exists k :: 0 <= k < |items| && items[k] == it
    {
      assert it in items;
    }
    forall id
      ensures GrantedBefore(items, |items|, production, now, id, c) == Granted(c, production, now, id)
    {
      if Granted(c, production, now, id) {
        var it :| Holds(c, it) && ActiveGrant(it, production, now) && IdentityOf(it.product, it.source) == id;
        var k :| 0 <= k < |items| && items[k] == it;
      }
    }
  }

  lemma ClaimTurn(
    items: seq<Item>, n: nat, production: bool, now: Instant, c: Customer,
    before: map<Identity, set<string>>, after: map<Identity, set<string>>,
    at: seq<nat>, grants: seq<(Option<Instant>, string)>, read: Outcome<Option<(Option<Instant>, string)>>)
    requires AllIdentified(c) && AllKeyed(c) && DistinctEvidence(c) && AllOf(items, c, false) && n < |items|
    requires ClaimLoop(items, n, production, now, c, before, at, grants)
    requires IdentifiedItem(items[n])
    requires read.Accepted? <==> PromoReads(items[n]) && MayClaim(items[n], production, now, before)
    requires read.Accepted? ==>
      read.value == if ActiveGrant(items[n], production, now) then Some(GrantEntry(items[n])) else None
    requires read.Accepted? ==> AfterClaim(items[n], production, now, before, after)
    ensures read.Rejected? ==> !GrantsInOrder(c, production, now)
    ensures read.Accepted? && read.value.Some? ==>
      ClaimLoop(items, n + 1, production, now, c, after, at + [n], grants + [read.value.value])
    ensures read.Accepted? && read.value.None? ==> ClaimLoop(items, n + 1, production, now, c, after, at, grants)
  {
    if read.Rejected? {
      ClaimFails(items, n, production, now, c, before);
    } else {
      ClaimStep(items, n, production, now, c, before, after);
      PlacesStep(items, n, production, now, at, grants);
    }
  }

  /** The promotional loop of `_parse_remove_ads_product_id`, claiming each active grant in place. */
  method ClaimGrants(items: seq<Item>, ownership: Ownership, production: bool, now: Instant, ghost c: Customer)
    returns (r: Outcome<seq<(Option<Instant>, string)>>, ghost at: seq<nat>)
    requires AllIdentified(c) && AllKeyed(c) && DistinctEvidence(c) && AllOf(items, c, false)
    requires forall id :: OwnersAt(ownership.owners, id) == Owners(c, id)
    modifies ownership
    ensures r.Accepted? <==> GrantsInOrder(c, production, now)
    ensures r.Accepted? ==> forall id :: OwnersAt(ownership.owners, id) == ClaimedOwners(c, production, now, id)
    ensures r.Accepted? ==> GrantPlaces(items, |items|, production, now, at, r.value)
  {
    at := [];
    var grants := [];
    ClaimStart(items, production, now, c, ownership.owners);
    hide PromoReads, AfterClaim, MayClaim, ActiveGrant, GrantsInOrder, DistinctEvidence, ClaimLoop, ClaimedUpTo,
         GrantPlaces, AllKeyed, ClaimedOwners, Owners, OwnersAt;
    for i := 0 to |items|
      invariant ClaimLoop(items, i, production, now, c, ownership.owners, at, grants)
    {
      ghost var before := ownership.owners;
      assert items[i] in items && IdentifiedItem(items[i]) && !items[i].oneTime;
      hide AllOf, AllIdentified, IdentifiedItem;
      var read := ClaimGrant(items[i], ownership, production, now);
      ClaimTurn(items, i, production, now, c, before, ownership.owners, at, grants, read);
      if read.Rejected? {
        return Rejected, at;
      }
      if read.value.Some? {
        grants := grants + [read.value.value];
        at := at + [i];
      }
    }
    ClaimsDone(items, production, now, c, ownership.owners, at, grants);
    return Accepted(grants), at;
  }

  /** `max(..., key=expiry or datetime.max)`: the first of the longest grants. */
  method LongestOf(grants: seq<(Option<Instant>, string)>) returns (best: nat)
    requires grants != []
    ensures best < |grants|
    ensures forall k :: 0 <= k < |grants| ==> Deadline(grants[k].0) <= Deadline(grants[best].0)
    ensures forall k :: 0 <= k < best ==> Deadline(grants[k].0) < Deadline(grants[best].0)
  {
    best := 0;
    for i := 1 to |grants|
      invariant best < i
      invariant forall k :: 0 <= k < i ==> Deadline(grants[k].0) <= Deadline(grants[best].0)
      invariant forall k :: 0 <= k < best ==> Deadline(grants[k].0) < Deadline(grants[best].0)
    {
      if Deadline(grants[i].0) > Deadline(grants[best].0) {
        best := i;
      }
    }
  }

  // ------------------------------------------------------- matching candidates

  ghost predicate ReadsAll(c: Customer, e: Entitlement)
    requires Keyed(e)
  {
    forall it :: Holds(c, it) && it.product == e.productId.text ==> ReadAgainst(it, e).Accepted?
  }

  /** The records that back an entitlement, each next to the candidate it parsed to. */
  ghost predicate BackedBy(c: Customer, e: Entitlement, found: seq<Item>, candidates: seq<Candidate>)
    requires AllIdentified(c) && Keyed(e)
  {
    && |found| == |candidates|
    && Distinct(found)
    && forall k :: 0 <= k < |found| ==>
         Holds(c, found[k]) && Backs(found[k], e) && ReadAgainst(found[k], e) == Accepted(Some(candidates[k]))
  }

  /** One record: rejected, not this purchase, or one more candidate. */
  method Consider(it: Item, e: Entitlement, candidates: seq<Candidate>, ghost found: seq<Item>, ghost c: Customer)
    returns (r: Outcome<seq<Candidate>>, ghost extended: seq<Item>)
    requires AllIdentified(c) && Keyed(e) && Holds(c, it) && it.product == e.productId.text
    requires BackedBy(c, e, found, candidates) && it !in found
    ensures r.Accepted? <==> ReadAgainst(it, e).Accepted?
    ensures r.Accepted? ==> BackedBy(c, e, extended, r.value)
    ensures r.Accepted? ==> extended == if Backs(it, e) then found + [it] else found
  {
    var candidate := ReadAgainst(it, e);
    if candidate.Rejected? {
      return Rejected, found;
    }
    CandidateMeaning(it.source, it.product, e.purchaseDate.at, TimeOf(e.expiresDate), TimeOf(e.graceDate), !it.oneTime);
    hide ParseCandidate;
    if candidate.value.None? {
      return Accepted(candidates), found;
    }
    return Accepted(candidates + [candidate.value.value]), found + [it];
  }

  /** The product's records before position n of a container have been considered. */
  ghost predicate Considered(c: Customer, e: Entitlement, oneTime: bool, n: nat, found: seq<Item>)
    requires AllIdentified(c) && Keyed(e)
  {
    forall it :: Holds(c, it) && it.product == e.productId.text && it.oneTime == oneTime && it.index < n ==>
      ReadAgainst(it, e).Accepted? && (Backs(it, e) ==> it in found)
  }

  /** The candidate loop over the product's one-time records. */
  method MatchOneTime(
    e: Entitlement, records: seq<Source>, candidates: seq<Candidate>, ghost earlier: seq<Item>, ghost c: Customer
  ) returns (r: Outcome<seq<Candidate>>, ghost found: seq<Item>)
    requires AllIdentified(c) && Keyed(e)
    requires e.productId.text in c.nonSubscriptions && c.nonSubscriptions[e.productId.text] == Shelf(records)
    requires BackedBy(c, e, earlier, candidates) && forall it :: it in earlier ==> !it.oneTime
    ensures r.Rejected? ==> !ReadsAll(c, e)
    ensures r.Accepted? ==> BackedBy(c, e, found, r.value) && Considered(c, e, true, |records|, found) && earlier <= found
  {
    hide ReadAgainst, AllIdentified, Identified, BackedBy, Backs;
    found := earlier;
    r := Accepted(candidates);
    for i := 0 to |records|
      invariant r.Accepted? && BackedBy(c, e, found, r.value) && earlier <= found
      invariant forall it :: it in found && it.oneTime ==> it.index < i
      invariant Considered(c, e, true, i, found)
    {
      r, found := Consider(Item(e.productId.text, true, i, records[i]), e, r.value, found, c);
      if r.Rejected? {
        return;
      }
    }
  }

  /** The candidate passes for one entitlement over both containers. */
  method MatchCandidates(
    e: Entitlement,
    subscriptions: Table<Source>,
    nonSubscriptions: Table<Shelf>,
    ghost c: Customer
  ) returns (r: Outcome<seq<Candidate>>, ghost found: seq<Item>)
    requires c.subscriptions == AsMap(subscriptions) && c.nonSubscriptions == AsMap(nonSubscriptions)
    requires AllIdentified(c) && WellShaped(c) && Keyed(e)
    ensures r.Accepted? <==> ReadsAll(c, e)
    ensures r.Accepted? ==> BackedBy(c, e, found, r.value)
    ensures r.Accepted? ==> forall it :: Holds(c, it) && Backs(it, e) ==> it in found
  {
    found := [];
    r := Accepted([]);
    assert BackedBy(c, e, found, r.value);
    hide ReadAgainst, AllIdentified, Identified, BackedBy, Backs, Considered, ReadsAll;
    var product := e.productId.text;
    var subscription := Lookup(subscriptions, product);
    if subscription.Some? {
      ghost var it := Item(product, false, 0, subscription.value);
      r, found := Consider(Item(product, false, 0, subscription.value), e, r.value, found, c);
      if r.Rejected? {
        RejectedRead(c, e, it);
        return;
      }
    }
    ghost var fromSubscriptions := found;
    OneConsidered(c, e, fromSubscriptions);
    var shelf := Lookup(nonSubscriptions, product);
    if shelf.Some? {
      assert ListsRecords(shelf.value);
      r, found := MatchOneTime(e, shelf.value.records, r.value, found, c);
    }
    AllConsidered(c, e, fromSubscriptions, found, r);
  }

  lemma RejectedRead(c: Customer, e: Entitlement, it: Item)
    requires Keyed(e) && Holds(c, it) && it.product == e.productId.text && ReadAgainst(it, e).Rejected?
    ensures !ReadsAll(c, e)
  {
  }

  /** A product has at most the one subscription. */
  lemma OneConsidered(c: Customer, e: Entitlement, found: seq<Item>)
    requires AllIdentified(c) && Keyed(e)
    requires e.productId.text in c.subscriptions ==>
      var it := Item(e.productId.text, false, 0, c.subscriptions[e.productId.text]);
      Holds(c, it) && ReadAgainst(it, e).Accepted? && (Backs(it, e) ==> it in found)
    ensures Considered(c, e, false, 1, found)
  {
  }

  lemma AllConsidered(c: Customer, e: Entitlement, earlier: seq<Item>, found: seq<Item>, r: Outcome<seq<Candidate>>)
    requires AllIdentified(c) && WellShaped(c) && Keyed(e)
    requires Considered(c, e, false, 1, earlier)
    requires r.Accepted? ==> earlier <= found
    requires var product := e.productId.text;
      r.Accepted? && product in c.nonSubscriptions ==>
        Considered(c, e, true, |c.nonSubscriptions[product].records|, found)
    ensures r.Accepted? ==> ReadsAll(c, e) && forall it :: Holds(c, it) && Backs(it, e) ==> it in found
  {
  }

  lemma OneBacker(c: Customer, e: Entitlement, a: Item, b: Item)
    requires AllIdentified(c) && DistinctEvidence(c) && Keyed(e)
    requires Holds(c, a) && Holds(c, b) && Backs(a, e) && Backs(b, e)
    ensures a == b
  {
  }

  /** Distinct evidence leaves an entitlement at most one candidate. */
  lemma AtMostOneCandidate(c: Customer, e: Entitlement, found: seq<Item>, candidates: seq<Candidate>)
    requires AllIdentified(c) && DistinctEvidence(c) && Keyed(e)
    requires BackedBy(c, e, found, candidates)
    ensures |candidates| <= 1
  {
    hide DistinctEvidence, ReadAgainst;
    if |found| > 1 {
      OneBacker(c, e, found[0], found[1]);
    }
  }

  // ------------------------------------------------------------ the entitlements

  predicate Allowed(candidate: Candidate, production: bool) {
    !candidate.blocked && (!production || !candidate.sandbox)
  }

  predicate Gives(candidate: Candidate, production: bool, now: Instant) {
    Allowed(candidate, production) && Unexpired(candidate.expiresAt, now)
  }

  function AllowedOnly(candidates: seq<Candidate>, production: bool): seq<Candidate> {
    if candidates == [] then []
    else (if Allowed(candidates[0], production) then [candidates[0]] else []) + AllowedOnly(candidates[1..], production)
  }

  function UnexpiredOnly(candidates: seq<Candidate>, now: Instant): seq<Candidate> {
    if candidates == [] then []
    else (if Unexpired(candidates[0].expiresAt, now) then [candidates[0]] else []) + UnexpiredOnly(candidates[1..], now)
  }

  lemma {:induction false} ActiveSingle(candidates: seq<Candidate>, production: bool, now: Instant)
    requires |candidates| <= 1
    ensures UnexpiredOnly(AllowedOnly(candidates, production), now) ==
      if |candidates| == 1 && Gives(candidates[0], production, now) then candidates else []
  {
    if |candidates| == 1 {
      assert candidates[1..] == [];
      assert AllowedOnly(candidates, production) == if Allowed(candidates[0], production) then candidates else [];
    }
  }

  /** The one candidate decides the entitlement and carries its expiry. */
  ghost predicate Decides(c: Customer, name: string, production: bool, now: Instant, candidates: seq<Candidate>)
    requires AllIdentified(c) && AllKeyed(c) && name in c.entitlements
  {
    var e := c.entitlements[name];
    && |candidates| == 1
    && (Entitled(c, name, production, now) <==> Gives(candidates[0], production, now))
    && (Entitled(c, name, production, now) ==>
          && candidates[0].expiresAt == EntitledUntil(e)
          && forall it :: Holds(c, it) && Backs(it, e) ==>
               && candidates[0].willRenew == (!it.oneTime && !Promotional(it.source) && !it.source.unsubscribedAt.At?)
               && candidates[0].isTrial == (it.source.periodType == Text("trial")))
  }

  lemma CandidateDecides(
    c: Customer, name: string, production: bool, now: Instant, found: seq<Item>, candidates: seq<Candidate>)
    requires AllIdentified(c) && DistinctEvidence(c) && AllKeyed(c) && name in c.entitlements
    requires BackedBy(c, c.entitlements[name], found, candidates)
    requires forall it :: Holds(c, it) && Backs(it, c.entitlements[name]) ==> it in found
    ensures candidates == [] <==> !exists it :: Holds(c, it) && Backs(it, c.entitlements[name])
    ensures candidates != [] ==> Decides(c, name, production, now, candidates)
  {
    var e := c.entitlements[name];
    AtMostOneCandidate(c, e, found, candidates);
    if |candidates| == 1 {
      var it := found[0];
      CandidateMeaning(it.source, it.product, e.purchaseDate.at, TimeOf(e.expiresDate), TimeOf(e.graceDate), !it.oneTime);
    }
  }

  /** The passes the two entitlements share: dates, candidates, and the scan for stray evidence. */
  method Support(
    name: string,
    e: Entitlement,
    subscriptions: Table<Source>,
    nonSubscriptions: Table<Shelf>,
    ownership: Ownership,
    production: bool,
    now: Instant,
    ghost c: Customer
  ) returns (r: Outcome<seq<Candidate>>)
    requires c.subscriptions == AsMap(subscriptions) && c.nonSubscriptions == AsMap(nonSubscriptions)
    requires WellShaped(c) && AllIdentified(c) && DistinctEvidence(c) && AllKeyed(c)
    requires name in c.entitlements && c.entitlements[name] == e
    requires forall id :: OwnersAt(ownership.owners, id) == ExtendedOwners(c, production, now, id)
    ensures r.Accepted? <==> Evidenced(c, e, production, now)
    ensures r.Accepted? ==> Decides(c, name, production, now, r.value)
  {
    assert Keyed(e);
    if e.expiresDate.Malformed? || e.graceDate.Malformed? {
      return Rejected;
    }
    hide AllIdentified, AllKeyed, DistinctEvidence, WellShaped, NoStrayEvidence, Holds, Backs, ReadAgainst, Decides, BackedBy;
    ghost var found;
    r, found := MatchCandidates(e, subscriptions, nonSubscriptions, c);
    if r.Rejected? {
      return;
    }
    CandidateDecides(c, name, production, now, found, r.value);
    if r.value == [] {
      return Rejected;
    }
    ItemsAreHeld(c, subscriptions, nonSubscriptions);
    var unambiguous := EvidenceIsUnambiguous(
      ItemsIn(Wrapped(subscriptions), false), ItemsIn(nonSubscriptions, true), KeyOf(e), ownership, now, production, c);
    if !unambiguous {
      return Rejected;
    }
  }

  lemma {:induction false} PlacesHoldGrants(
    items: seq<Item>, production: bool, now: Instant, c: Customer, at: seq<nat>,
    grants: seq<(Option<Instant>, string)>, best: nat)
    requires AllOf(items, c, false)
    requires GrantPlaces(items, |items|, production, now, at, grants)
    requires best < |grants|
    requires forall k :: 0 <= k < |grants| ==> Deadline(grants[k].0) <= Deadline(grants[best].0)
    requires forall k :: 0 <= k < best ==> Deadline(grants[k].0) < Deadline(grants[best].0)
    ensures FirstLongest(items, production, now, grants[best].1)
    ensures LongestGrant(c, production, now, items[at[best]])
  {
    var a := at[best];
    forall b | 0 <= b < |items| && ActiveGrant(items[b], production, now)
      ensures Deadline(OwnExpiry(items[b].source)) <= Deadline(OwnExpiry(items[a].source))
      ensures b < a ==> Deadline(OwnExpiry(items[b].source)) < Deadline(OwnExpiry(items[a].source))
    {
      var k :| 0 <= k < |at| && at[k] == b;
    }
    assert LongestFrom(items, production, now, a);
    assert items[a] in items;
    forall other | Holds(c, other) && ActiveGrant(other, production, now)
      ensures Deadline(OwnExpiry(other.source)) <= Deadline(OwnExpiry(items[a].source))
    {
      var b :| 0 <= b < |items| && items[b] == other;
    }
  }

  /** The record at place a is an active grant, no other lasts longer, and no earlier one as long. */
  ghost predicate LongestFrom(items: seq<Item>, production: bool, now: Instant, a: int) {
    && 0 <= a < |items|
    && ActiveGrant(items[a], production, now)
    && forall b :: 0 <= b < |items| && ActiveGrant(items[b], production, now) ==>
         && Deadline(OwnExpiry(items[b].source)) <= Deadline(OwnExpiry(items[a].source))
         && (b < a ==> Deadline(OwnExpiry(items[b].source)) < Deadline(OwnExpiry(items[a].source)))
  }

  /** Ties between grants go to the first subscription in the payload. */
  ghost predicate FirstLongest(items: seq<Item>, production: bool, now: Instant, product: string) {
    exists a :: LongestFrom(items, production, now, a) && items[a].product == product
  }

  /** The grants of a customer with Remove Ads are active exactly when the loop lists one. */
  lemma GrantsListed(
    items: seq<Item>, production: bool, now: Instant, c: Customer, at: seq<nat>, grants: seq<(Option<Instant>, string)>)
    requires AllOf(items, c, false)
    requires GrantPlaces(items, |items|, production, now, at, grants)
    ensures AnyGrant(c, production, now) <==> grants != []
  {
    if grants != [] {
      assert items[at[0]] in items;
    }
    if AnyGrant(c, production, now) {
      var it :| Holds(c, it) && ActiveGrant(it, production, now);
      var b :| 0 <= b < |items| && items[b] == it;
      assert b in at;
    }
  }

  /** Claiming the grants does not change whether Remove Ads is the sole owner of its purchase. */
  lemma SoleOwner(c: Customer, production: bool, now: Instant)
    requires AllIdentified(c) && AllKeyed(c) && REMOVE_ADS in c.entitlements && GrantsInOrder(c, production, now)
    ensures var id := KeyOf(c.entitlements[REMOVE_ADS]);
      ExtendedOwners(c, production, now, id) == {REMOVE_ADS} <==> Owners(c, id) == {REMOVE_ADS}
  {
    var id := KeyOf(c.entitlements[REMOVE_ADS]);
    assert REMOVE_ADS in Owners(c, id);
    NotWithin(Owners(c, id), REMOVE_ADS);
  }

  /** The product of the longest grant, or else the entitlement's own product while it lasts. */
  method ChooseRemoveAds(
    items: seq<Item>, grants: seq<(Option<Instant>, string)>, candidates: seq<Candidate>, e: Entitlement,
    production: bool, now: Instant, ghost at: seq<nat>, ghost c: Customer
  ) returns (product: Option<string>)
    requires AllOf(items, c, false) && AllIdentified(c) && AllKeyed(c)
    requires REMOVE_ADS in c.entitlements && c.entitlements[REMOVE_ADS] == e
    requires GrantPlaces(items, |items|, production, now, at, grants)
    requires Decides(c, REMOVE_ADS, production, now, candidates)
    ensures RemoveAdsRule(c, production, now, product)
    ensures AnyGrant(c, production, now) ==> FirstLongest(items, production, now, product.value)
  {
    GrantsListed(items, production, now, c, at, grants);
    hide ActiveGrant, AllIdentified, AllOf;
    if grants != [] {
      var best := LongestOf(grants);
      PlacesHoldGrants(items, production, now, c, at, grants, best);
      return Some(grants[best].1);
    }
    var active := UnexpiredOnly(AllowedOnly(candidates, production), now);
    ActiveSingle(candidates, production, now);
    return if active != [] then Some(e.productId.text) else None;
  }

  /** `_parse_remove_ads_product_id` */
  method ParseRemoveAds(
    entitlements: Table<Entitlement>,
    subscriptions: Table<Source>,
    nonSubscriptions: Table<Shelf>,
    ownership: Ownership,
    production: bool,
    now: Instant,
    ghost c: Customer
  ) returns (r: Outcome<Option<string>>)
    requires c == View(entitlements, subscriptions, nonSubscriptions)
    requires WellShaped(c) && AllIdentified(c) && DistinctEvidence(c) && AllKeyed(c)
    requires forall id :: OwnersAt(ownership.owners, id) == Owners(c, id)
    modifies ownership
    ensures r.Accepted? <==>
      (REMOVE_ADS in c.entitlements ==> GrantsInOrder(c, production, now) && Supported(c, REMOVE_ADS, production, now))
    ensures r.Accepted? ==> forall id :: OwnersAt(ownership.owners, id) == ExtendedOwners(c, production, now, id)
    ensures r.Accepted? ==> RemoveAdsRule(c, production, now, r.value)
    ensures r.Accepted? && REMOVE_ADS in c.entitlements && AnyGrant(c, production, now) ==>
      FirstLongest(ItemsIn(Wrapped(subscriptions), false), production, now, r.value.value)
  {
    var entry := Lookup(entitlements, REMOVE_ADS);
    if entry.None? {
      return Accepted(None);
    }
    var e := entry.value;
    assert c.entitlements[REMOVE_ADS] == e && Keyed(e);
    if GrantsInOrder(c, production, now) {
      SoleOwner(c, production, now);
    }
    hide WellShaped, AllIdentified, AllKeyed, DistinctEvidence, GrantsInOrder, Evidenced, Entitled, Owners,
         ClaimedOwners, RemoveAdsRule, FirstLongest, AnyGrant, GrantPlaces, Decides;
    var items := ItemsIn(Wrapped(subscriptions), false);
    ItemsAreHeld(c, subscriptions, nonSubscriptions);
    if ownership.Of(KeyOf(e)) != {REMOVE_ADS} {
      return Rejected;
    }
    var grants, at := ClaimGrants(items, ownership, production, now, c);
    if grants.Rejected? {
      return Rejected;
    }
    var candidates := Support(REMOVE_ADS, e, subscriptions, nonSubscriptions, ownership, production, now, c);
    if candidates.Rejected? {
      return Rejected;
    }
    var product := ChooseRemoveAds(items, grants.value, candidates.value, e, production, now, at, c);
    return Accepted(product);
  }

  /** `max(..., key=expiry or datetime.max)` over the active candidates. */
  method LatestOf(candidates: seq<Candidate>) returns (best: Candidate)
    requires candidates != []
    ensures best in candidates
    ensures forall k :: 0 <= k < |candidates| ==> Deadline(candidates[k].expiresAt) <= Deadline(best.expiresAt)
  {
    best := candidates[0];
    for i := 1 to |candidates|
      invariant best in candidates
      invariant forall k :: 0 <= k < i ==> Deadline(candidates[k].expiresAt) <= Deadline(best.expiresAt)
    {
      if Deadline(candidates[i].expiresAt) > Deadline(best.expiresAt) {
        best := candidates[i];
      }
    }
  }

  function FreeSnapshot(removeAds: Option<string>): Snapshot {
    Snapshot(false, None, None, false, false, removeAds)
  }

  /** The premium half of a snapshot. */
  ghost predicate PremiumRule(c: Customer, production: bool, now: Instant, s: Snapshot)
    requires AllIdentified(c) && AllKeyed(c)
  {
    && (s.premium <==> Entitled(c, PREMIUM, production, now))
    && (s.premium ==> PremiumDetails(c, s))
    && (!s.premium ==> s == FreeSnapshot(s.removeAdsProductId))
  }

  /** The free snapshot unless a candidate is allowed and unexpired; then the latest such one. */
  method ChoosePremium(
    candidates: seq<Candidate>, e: Entitlement, removeAds: Option<string>, production: bool, now: Instant, ghost c: Customer
  ) returns (s: Snapshot)
    requires AllIdentified(c) && AllKeyed(c)
    requires PREMIUM in c.entitlements && c.entitlements[PREMIUM] == e
    requires Decides(c, PREMIUM, production, now, candidates)
    ensures PremiumRule(c, production, now, s) && s.removeAdsProductId == removeAds
  {
    hide AllIdentified, Entitled, Holds, Backs;
    var active := UnexpiredOnly(AllowedOnly(candidates, production), now);
    ActiveSingle(candidates, production, now);
    if active == [] {
      return FreeSnapshot(removeAds);
    }
    var best := LatestOf(active);
    return Snapshot(true, best.expiresAt, Some(e.productId.text), best.willRenew, best.isTrial, removeAds);
  }

  /** The premium passes of `parse_revenuecat_subscriber`. */
  method ParsePremium(
    entitlements: Table<Entitlement>,
    subscriptions: Table<Source>,
    nonSubscriptions: Table<Shelf>,
    ownership: Ownership,
    removeAds: Option<string>,
    production: bool,
    now: Instant,
    ghost c: Customer
  ) returns (r: Outcome<Snapshot>)
    requires c == View(entitlements, subscriptions, nonSubscriptions)
    requires WellShaped(c) && AllIdentified(c) && DistinctEvidence(c) && AllKeyed(c)
    requires forall id :: OwnersAt(ownership.owners, id) == ExtendedOwners(c, production, now, id)
    ensures r.Accepted? <==>
      (PREMIUM in c.entitlements ==>
         !c.entitlements[PREMIUM].expiresDate.Absent? && Supported(c, PREMIUM, production, now))
    ensures r.Accepted? ==> PremiumRule(c, production, now, r.value) && r.value.removeAdsProductId == removeAds
  {
    var entry := Lookup(entitlements, PREMIUM);
    if entry.None? {
      return Accepted(FreeSnapshot(removeAds));
    }
    var e := entry.value;
    assert c.entitlements[PREMIUM] == e && Keyed(e);
    if e.expiresDate.Absent? {
      return Rejected;
    }
    hide WellShaped, AllIdentified, AllKeyed, DistinctEvidence, Evidenced, Entitled, ExtendedOwners, Holds, Backs,
         Decides, PremiumRule;
    var candidates := Support(PREMIUM, e, subscriptions, nonSubscriptions, ownership, production, now, c);
    if candidates.Rejected? || ownership.Of(KeyOf(e)) != {PREMIUM} {
      return Rejected;
    }
    var snapshot := ChoosePremium(candidates.value, e, removeAds, production, now, c);
    return Accepted(snapshot);
  }

  /** The check that every non-subscription value is a non-empty list of objects. */
  method ListsAreRecords(nonSubscriptions: Table<Shelf>) returns (ok: bool)
    ensures ok <==> forall i :: 0 <= i < |nonSubscriptions| ==> ListsRecords(nonSubscriptions[i].1)
  {
    for i := 0 to |nonSubscriptions|
      invariant forall j :: 0 <= j < i ==> ListsRecords(nonSubscriptions[j].1)
    {
      if !ListsRecords(nonSubscriptions[i].1) {
        return false;
      }
    }
    return true;
  }

  /** The records of both containers, visited once each. */
  lemma AllItems(c: Customer, subscriptions: Table<Source>, nonSubscriptions: Table<Shelf>, items: seq<Item>)
    requires c.subscriptions == AsMap(subscriptions) && c.nonSubscriptions == AsMap(nonSubscriptions)
    requires items == ItemsIn(Wrapped(subscriptions), false) + ItemsIn(nonSubscriptions, true)
    ensures Distinct(items) && forall it :: Holds(c, it) <==> it in items
  {
    ItemsAreHeld(c, subscriptions, nonSubscriptions);
    hide Holds, ItemsIn, Wrapped;
    var first, second := ItemsIn(Wrapped(subscriptions), false), ItemsIn(nonSubscriptions, true);
    forall j, k | 0 <= j < k < |items|
      ensures items[j] != items[k]
    {
      if j < |first| <= k {
        assert items[j] in first && items[k] in second;
      }
    }
  }

  lemma ItemsIdentified(c: Customer, items: seq<Item>)
    requires forall it :: Holds(c, it) <==> it in items
    ensures (forall k :: 0 <= k < |items| ==> IdentifiedItem(items[k])) <==> AllIdentified(c)
  {
    hide Holds, Identified;
    if AllIdentified(c) {
      assert forall k :: 0 <= k < |items| ==> items[k] in items;
    }
  }

  lemma IdentifiedIsShaped(c: Customer, nonSubscriptions: Table<Shelf>)
    requires c.nonSubscriptions == AsMap(nonSubscriptions) && AllIdentified(c)
    requires forall i :: 0 <= i < |nonSubscriptions| ==> ListsRecords(nonSubscriptions[i].1)
    ensures WellShaped(c)
  {
    forall p | p in c.subscriptions
      ensures c.subscriptions[p].Source?
    {
      assert Holds(c, Item(p, false, 0, c.subscriptions[p]));
    }
  }

  /** After the shape check, the identity pass accepts exactly the well-identified customers. */
  lemma IdentityPassMeaning(
    c: Customer, subscriptions: Table<Source>, nonSubscriptions: Table<Shelf>, items: seq<Item>)
    requires c.subscriptions == AsMap(subscriptions) && c.nonSubscriptions == AsMap(nonSubscriptions)
    requires items == ItemsIn(Wrapped(subscriptions), false) + ItemsIn(nonSubscriptions, true)
    requires forall i :: 0 <= i < |nonSubscriptions| ==> ListsRecords(nonSubscriptions[i].1)
    ensures
      ((forall k :: 0 <= k < |items| ==> IdentifiedItem(items[k]))
       && (forall j, k :: 0 <= j < k < |items| ==> ItemIdentity(items[j]) != ItemIdentity(items[k])))
      <==> WellShaped(c) && AllIdentified(c) && DistinctEvidence(c)
  {
    AllItems(c, subscriptions, nonSubscriptions, items);
    ItemsIdentified(c, items);
    if AllIdentified(c) {
      IdentifiedIsShaped(c, nonSubscriptions);
      PairsMeanDistinct(c, items);
    }
  }

  lemma PairsMeanDistinct(c: Customer, items: seq<Item>)
    requires AllIdentified(c) && Distinct(items)
    requires forall it :: Holds(c, it) <==> it in items
    requires forall k :: 0 <= k < |items| ==> IdentifiedItem(items[k])
    ensures (forall j, k :: 0 <= j < k < |items| ==> ItemIdentity(items[j]) != ItemIdentity(items[k]))
      <==> DistinctEvidence(c)
  {
    if forall j, k :: 0 <= j < k < |items| ==> ItemIdentity(items[j]) != ItemIdentity(items[k]) {
      forall a, b | Holds(c, a) && Holds(c, b)
        && IdentityOf(a.product, a.source) == IdentityOf(b.product, b.source)
        ensures a == b
      {
        var j :| 0 <= j < |items| && items[j] == a;
        var k :| 0 <= k < |items| && items[k] == b;
      }
    }
    if DistinctEvidence(c) {
      forall j, k | 0 <= j < k < |items|
        ensures ItemIdentity(items[j]) != ItemIdentity(items[k])
      {
        assert items[j] in items && items[k] in items;
      }
    }
  }

  /** A payload whose containers are all objects, and the customer it decodes to. */
  predicate Decoded(payload: Payload) {
    payload.Subscriber? && payload.entitlements.Dict? && payload.subscriptions.Dict? && payload.nonSubscriptions.Dict?
  }

  ghost function CustomerOf(payload: Payload): Customer
    requires Decoded(payload)
  {
    View(payload.entitlements.entries, payload.subscriptions.entries, payload.nonSubscriptions.entries)
  }

  /** The subscriptions in payload order. */
  function Subscriptions(payload: Payload): seq<Item>
    requires Decoded(payload)
  {
    ItemsIn(Wrapped(payload.subscriptions.entries), false)
  }

  /**
   `parse_revenuecat_subscriber`: the passes accept exactly the customers the rule accepts,
   and the snapshot is the one the rule describes.
   */
  method ParseSubscriber(payload: Payload, production: bool, now: Instant) returns (r: Outcome<Snapshot>)
    ensures r.Accepted? <==> Decoded(payload) && Accepts(CustomerOf(payload), production, now)
    ensures r.Accepted? ==> Describes(CustomerOf(payload), production, now, r.value)
    ensures r.Accepted? && REMOVE_ADS in CustomerOf(payload).entitlements ==>
      AnyGrant(CustomerOf(payload), production, now) ==>
        FirstLongest(Subscriptions(payload), production, now, r.value.removeAdsProductId.value)
  {
    if !Decoded(payload) {
      return Rejected;
    }
    var entitlements, subscriptions := payload.entitlements.entries, payload.subscriptions.entries;
    var nonSubscriptions := payload.nonSubscriptions.entries;
    ghost var c := CustomerOf(payload);
    var listed := ListsAreRecords(nonSubscriptions);
    if !listed {
      return Rejected;
    }
    var items := ItemsIn(Wrapped(subscriptions), false) + ItemsIn(nonSubscriptions, true);
    IdentityPassMeaning(c, subscriptions, nonSubscriptions, items);
    var unique := EnsureUniqueIdentities(items);
    hide WellShaped, AllIdentified, AllKeyed, DistinctEvidence, GrantsInOrder, Supported, Entitled, RemoveAdsRule,
         AnyGrant, ExtendedOwners, Owners, PremiumDetails, FirstLongest, Identified, ItemsIn;
    if !unique {
      return Rejected;
    }
    var ownership := EntitlementOwners(entitlements, c);
    if ownership.Rejected? {
      return Rejected;
    }
    var removeAds := ParseRemoveAds(entitlements, subscriptions, nonSubscriptions, ownership.value, production, now, c);
    if removeAds.Rejected? {
      return Rejected;
    }
    r := ParsePremium(
      entitlements, subscriptions, nonSubscriptions, ownership.value, removeAds.value, production, now, c);
  }
}
