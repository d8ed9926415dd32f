/** What the access rule guarantees across time, records and iteration orders. */
module AccessTheorems {
  import opened Prelude
  import opened Evidence
  import opened AccessRule
  import opened SubscriberParser

  // ------------------------------------------------------------- access decays

  lemma GrantDecays(it: Item, production: bool, earlier: Instant, later: Instant)
    requires earlier <= later && ActiveGrant(it, production, later)
    ensures ActiveGrant(it, production, earlier)
  {
  }

  /** The grants that end between two instants leave evidence that is readable and no longer live. */
  lemma EndedGrantIsSpent(it: Item, production: bool, now: Instant)
    requires Grant(it) && it.source.purchaseDate.At? && GrantReadable(it)
    requires Usable(it.source, production) && !ActiveGrant(it, production, now)
    ensures DatesReadable(it.source) && !Live(it.source, now)
  {
  }

  lemma StrayStaysAway(c: Customer, production: bool, earlier: Instant, later: Instant, matched: Identity)
    requires earlier <= later
    requires AllIdentified(c) && AllKeyed(c)
    requires REMOVE_ADS in c.entitlements ==> GrantsInOrder(c, production, earlier)
    requires NoStrayEvidence(c, production, earlier, matched)
    requires DistinctEvidence(c)
    ensures NoStrayEvidence(c, production, later, matched)
  {
    hide GrantReadable, Usable, Live, DatesReadable, PromotionalStore;
    forall it | Holds(c, it)
      ensures ReadableAside(it.source)
      ensures var id := IdentityOf(it.product, it.source);
              id == matched || |ExtendedOwners(c, production, later, id)| == 1
              || (DatesReadable(it.source) && !Live(it.source, later))
    {
      var id := IdentityOf(it.product, it.source);
      if id != matched && |ExtendedOwners(c, production, later, id)| != 1 {
        OneRecordLater(c, production, earlier, later, it);
      }
    }
  }

  /** One record's case: it was excused earlier, so it is excused or spent later. */
  lemma OneRecordLater(c: Customer, production: bool, earlier: Instant, later: Instant, it: Item)
    requires earlier <= later
    requires AllIdentified(c) && AllKeyed(c) && DistinctEvidence(c) && Holds(c, it)
    requires REMOVE_ADS in c.entitlements ==> GrantsInOrder(c, production, earlier)
    requires var id := IdentityOf(it.product, it.source);
      |ExtendedOwners(c, production, earlier, id)| == 1 || (DatesReadable(it.source) && !Live(it.source, earlier))
    requires |ExtendedOwners(c, production, later, IdentityOf(it.product, it.source))| != 1
    ensures DatesReadable(it.source) && !Live(it.source, later)
  {
    var id := IdentityOf(it.product, it.source);
    if REMOVE_ADS in c.entitlements && Granted(c, production, earlier, id) {
      var grant :| Holds(c, grant) && ActiveGrant(grant, production, earlier)
        && IdentityOf(grant.product, grant.source) == id;
      assert grant == it;
      EndedGrantIsSpent(it, production, later);
    } else if REMOVE_ADS in c.entitlements {
      LaterGrantsAreEarlier(c, production, earlier, later, id);
    }
  }

  lemma LaterGrantsAreEarlier(c: Customer, production: bool, earlier: Instant, later: Instant, id: Identity)
    requires earlier <= later && AllIdentified(c)
    ensures Granted(c, production, later, id) ==> Granted(c, production, earlier, id)
  {
    if Granted(c, production, later, id) {
      var it :| Holds(c, it) && ActiveGrant(it, production, later) && IdentityOf(it.product, it.source) == id;
      GrantDecays(it, production, earlier, later);
    }
  }

  /** The owner of an entitlement's purchase does not change as grants end. */
  lemma OwnerStays(c: Customer, name: string, production: bool, earlier: Instant, later: Instant)
    requires earlier <= later && AllIdentified(c) && AllKeyed(c)
    requires name in c.entitlements && ExtendedOwners(c, production, earlier, KeyOf(c.entitlements[name])) == {name}
    requires REMOVE_ADS in c.entitlements ==> GrantsInOrder(c, production, earlier)
    ensures ExtendedOwners(c, production, later, KeyOf(c.entitlements[name])) == {name}
  {
    var id := KeyOf(c.entitlements[name]);
    assert name in Owners(c, id);
    LaterGrantsAreEarlier(c, production, earlier, later, id);
    NotWithin(Owners(c, id), REMOVE_ADS);
  }

  lemma GrantsStayInOrder(c: Customer, production: bool, earlier: Instant, later: Instant)
    requires earlier <= later && AllIdentified(c) && AllKeyed(c) && GrantsInOrder(c, production, earlier)
    ensures GrantsInOrder(c, production, later)
  {
    hide GrantReadable, PromotionalStore;
    forall it | Holds(c, it) && ActiveGrant(it, production, later)
      ensures Owners(c, IdentityOf(it.product, it.source)) <= {REMOVE_ADS}
    {
      GrantDecays(it, production, earlier, later);
    }
  }

  lemma SupportLasts(c: Customer, name: string, production: bool, earlier: Instant, later: Instant)
    requires earlier <= later && AllIdentified(c) && AllKeyed(c) && DistinctEvidence(c)
    requires name in c.entitlements && Supported(c, name, production, earlier)
    requires REMOVE_ADS in c.entitlements ==> GrantsInOrder(c, production, earlier)
    ensures Supported(c, name, production, later)
  {
    hide NoStrayEvidence, GrantsInOrder, ExtendedOwners, Holds, ReadAgainst, Backs;
    OwnerStays(c, name, production, earlier, later);
    StrayStaysAway(c, production, earlier, later, KeyOf(c.entitlements[name]));
  }

  /** A payload that parses at one instant parses at every later one. */
  lemma AcceptanceLasts(c: Customer, production: bool, earlier: Instant, later: Instant)
    requires earlier <= later && Accepts(c, production, earlier)
    ensures Accepts(c, production, later)
  {
    hide Supported, GrantsInOrder, WellShaped;
    if REMOVE_ADS in c.entitlements {
      GrantsStayInOrder(c, production, earlier, later);
      SupportLasts(c, REMOVE_ADS, production, earlier, later);
    }
    if PREMIUM in c.entitlements {
      SupportLasts(c, PREMIUM, production, earlier, later);
    }
  }

  /** For a fixed payload access only decays, and a premium that lasts keeps its details. */
  lemma AccessDecays(c: Customer, production: bool, earlier: Instant, later: Instant, before: Snapshot, after: Snapshot)
    requires earlier <= later
    requires Accepts(c, production, earlier)
    requires Describes(c, production, earlier, before) && Describes(c, production, later, after)
    ensures after.premium ==> before.premium && after == before.(removeAdsProductId := after.removeAdsProductId)
    ensures after.removeAdsProductId.Some? ==> before.removeAdsProductId.Some?
  {
    if after.premium {
      var it :| Holds(c, it) && Backs(it, c.entitlements[PREMIUM]) && Usable(it.source, production);
      assert Entitled(c, PREMIUM, production, earlier);
    }
    if REMOVE_ADS in c.entitlements && AnyGrant(c, production, later) {
      var it :| Holds(c, it) && ActiveGrant(it, production, later);
      GrantDecays(it, production, earlier, later);
    }
  }

  // ---------------------------------------------------- no ambiguous evidence

  /** Dates without an end, with an end after now, or with a grace period that ends after now. */
  predicate Running(expires: TimeField, grace: TimeField, now: Instant) {
    !expires.At? || expires.at > now || (grace.At? && grace.at > now)
  }

  /** The last moment of the dates: the later of end and grace, and none without an end. */
  predicate EndsWith(expires: TimeField, grace: TimeField, end: Option<Instant>) {
    match end
    case None => !expires.At?
    case Some(t) =>
      && expires.At? && t >= expires.at && (grace.At? ==> t >= grace.at)
      && (t == expires.at || (grace.At? && t == grace.at))
  }

  lemma RunningMeaning(expires: TimeField, grace: TimeField, now: Instant)
    ensures Unexpired(EffectiveExpiry(TimeOf(expires), TimeOf(grace)), now) <==> Running(expires, grace, now)
    ensures EndsWith(expires, grace, EffectiveExpiry(TimeOf(expires), TimeOf(grace)))
  {
  }

  /**
   Every record of an accepted customer with an entitlement of ours that is neither refunded
   nor revoked, and still runs by its own dates, has exactly one owner.
   */
  lemma LiveEvidenceHasOneOwner(c: Customer, production: bool, now: Instant, it: Item)
    requires Accepts(c, production, now)
    requires PREMIUM in c.entitlements || REMOVE_ADS in c.entitlements
    requires Holds(c, it) && !it.source.refundedAt.At? && !it.source.revokedAt.At?
    requires Running(it.source.expiresDate, it.source.graceDate, now)
    ensures exists owner :: ExtendedOwners(c, production, now, IdentityOf(it.product, it.source)) == {owner}
  {
    var name := if PREMIUM in c.entitlements then PREMIUM else REMOVE_ADS;
    assert Supported(c, name, production, now);
    RunningMeaning(it.source.expiresDate, it.source.graceDate, now);
    var owners := ExtendedOwners(c, production, now, IdentityOf(it.product, it.source));
    assert |owners| == 1;
    var owner :| owner in owners;
    assert |owners - {owner}| == 0;
    assert owners == {owner};
  }

  /** What an accepted customer never lacks, and that no two records share product and purchase date. */
  lemma AcceptedIsComplete(c: Customer, production: bool, now: Instant)
    requires Accepts(c, production, now)
    ensures forall p :: p in c.nonSubscriptions ==> c.nonSubscriptions[p].Shelf? && c.nonSubscriptions[p].records != []
    ensures forall it :: Holds(c, it) ==>
      it.source.Source? && it.source.purchaseDate.At? && (it.source.productId.NoText? || it.source.productId == Text(it.product))
    ensures forall a, b :: Holds(c, a) && Holds(c, b) && a != b ==>
      a.product != b.product || a.source.purchaseDate != b.source.purchaseDate
    ensures forall n :: n in c.entitlements ==>
      && c.entitlements[n].Entitlement? && c.entitlements[n].purchaseDate.At?
      && c.entitlements[n].productId.Text? && c.entitlements[n].productId.text != ""
  {
    hide Holds, Supported, GrantsInOrder;
    forall a, b | Holds(c, a) && Holds(c, b) && a != b
      ensures a.product != b.product || a.source.purchaseDate != b.source.purchaseDate
    {
      assert IdentityOf(a.product, a.source) != IdentityOf(b.product, b.source);
    }
  }

  // ------------------------------------------------- one record decides access

  /** One record, and only one, backs each entitlement of ours. */
  lemma OneRecordBacks(c: Customer, name: string, production: bool, now: Instant) returns (it: Item)
    requires Accepts(c, production, now)
    requires name == PREMIUM || name == REMOVE_ADS
    requires name in c.entitlements
    ensures Holds(c, it) && Backs(it, c.entitlements[name])
    ensures forall other :: Holds(c, other) && Backs(other, c.entitlements[name]) ==> other == it
    ensures Entitled(c, name, production, now) <==>
      Usable(it.source, production) && Unexpired(EntitledUntil(c.entitlements[name]), now)
  {
    assert Supported(c, name, production, now);
    it :| Holds(c, it) && Backs(it, c.entitlements[name]);
  }

  /** The record was bought as the entitlement says, and still counts in the environment. */
  predicate Proves(it: Item, e: Entitlement, production: bool) {
    && e.Entitlement? && e.productId == Text(it.product)
    && it.source.Source? && it.source.purchaseDate == e.purchaseDate
    && !it.source.refundedAt.At? && !it.source.revokedAt.At?
    && !(production && it.source.isSandbox == Some(true))
  }

  /**
   Premium is the state of the one record bought at the entitlement's time, until the
   entitlement's end or, if later, the end of its grace period.
   */
  lemma PremiumIsOneRecord(c: Customer, production: bool, now: Instant, s: Snapshot)
    requires Accepts(c, production, now) && Describes(c, production, now, s)
    ensures s.premium <==>
      && "premium" in c.entitlements
      && Running(c.entitlements["premium"].expiresDate, c.entitlements["premium"].graceDate, now)
      && exists it :: Holds(c, it) && Proves(it, c.entitlements["premium"], production)
  {
    if PREMIUM in c.entitlements {
      var e := c.entitlements[PREMIUM];
      var it := OneRecordBacks(c, PREMIUM, production, now);
      RunningMeaning(e.expiresDate, e.graceDate, now);
      forall other | Holds(c, other) && Proves(other, e, production)
        ensures other == it
      {
        assert Backs(other, e);
      }
      assert Usable(it.source, production) ==> Proves(it, e, production);
    }
  }

  /** What a premium snapshot says: the end of the dates, and the state of the one record. */
  lemma PremiumShowsItsRecord(c: Customer, production: bool, now: Instant, s: Snapshot, it: Item)
    requires Accepts(c, production, now) && Describes(c, production, now, s) && s.premium
    requires Holds(c, it) && PREMIUM in c.entitlements && Proves(it, c.entitlements[PREMIUM], production)
    ensures var e := c.entitlements[PREMIUM];
      && EndsWith(e.expiresDate, e.graceDate, s.expiresAt)
      && s.productId == Some(it.product)
      && s.isTrial == (it.source.periodType == Text("trial"))
      && (s.willRenew <==>
            && !it.oneTime && !it.source.unsubscribedAt.At? && it.source.periodType != Text("promotional")
            && !(it.source.store.Text? && SpellsPromotional(it.source.store.text)))
  {
    var e := c.entitlements[PREMIUM];
    assert Backs(it, e);
    RunningMeaning(e.expiresDate, e.graceDate, now);
    if it.source.store.Text? {
      PromotionalIsSpelled(it.source.store.text);
    }
    hide PromotionalStore, SpellsPromotional, Accepts, Holds;
  }

  /**
   A customer in billing grace keeps premium: with a record that proves the entitlement, and
   both dates present, premium lasts as long as the later one, which the snapshot shows.
   */
  lemma GraceExtendsPremium(
    c: Customer, production: bool, now: Instant, s: Snapshot, it: Item, expiresAt: Instant, graceAt: Instant)
    requires Accepts(c, production, now) && Describes(c, production, now, s)
    requires Holds(c, it) && PREMIUM in c.entitlements && Proves(it, c.entitlements[PREMIUM], production)
    requires c.entitlements[PREMIUM].expiresDate == At(expiresAt) && c.entitlements[PREMIUM].graceDate == At(graceAt)
    ensures s.premium <==> expiresAt > now || graceAt > now
    ensures s.premium ==> s.expiresAt == Some(if graceAt > expiresAt then graceAt else expiresAt)
  {
    PremiumIsOneRecord(c, production, now, s);
    if s.premium {
      PremiumShowsItsRecord(c, production, now, s, it);
    }
  }

  /** Without a grace date premium lasts until the end, and without an end it is unlimited. */
  lemma PremiumWithoutGrace(c: Customer, production: bool, now: Instant, s: Snapshot, it: Item)
    requires Accepts(c, production, now) && Describes(c, production, now, s)
    requires Holds(c, it) && PREMIUM in c.entitlements && Proves(it, c.entitlements[PREMIUM], production)
    requires !c.entitlements[PREMIUM].graceDate.At? || !c.entitlements[PREMIUM].expiresDate.At?
    ensures var end := c.entitlements[PREMIUM].expiresDate;
      && (s.premium <==> !end.At? || end.at > now)
      && (s.premium ==> s.expiresAt == if end.At? then Some(end.at) else None)
  {
    PremiumIsOneRecord(c, production, now, s);
    if s.premium {
      PremiumShowsItsRecord(c, production, now, s, it);
    }
  }

  /** An active promotional grant, in the fields of its record. */
  predicate GrantsAccess(it: Item, production: bool, now: Instant) {
    && !it.oneTime && "rc_promo_remove_ads_" <= it.product
    && it.source.Source? && it.source.store.Text? && SpellsPromotional(it.source.store.text)
    && !it.source.refundedAt.At? && !it.source.revokedAt.At?
    && !(production && it.source.isSandbox == Some(true))
    && Running(it.source.expiresDate, it.source.graceDate, now)
  }

  /** The word "promotional" in any mixture of cases. */
  predicate SpellsPromotional(store: string) {
    |store| == |"promotional"| && forall i :: 0 <= i < |store| ==>
      store[i] == "promotional"[i] || store[i] == "PROMOTIONAL"[i]
  }

  lemma PromotionalIsSpelled(store: string)
    ensures PromotionalStore(store) <==> SpellsPromotional(store)
  {
    var word, upper := "promotional", "PROMOTIONAL";
    assert |word| == |upper| && forall i :: 0 <= i < |word| ==> 'a' <= word[i] <= 'z' && upper[i] == word[i] - 'a' + 'A';
    assert |Lower(store)| == |store|;
    if |store| == |word| {
      forall i | 0 <= i < |word|
        ensures Lower(store)[i] == word[i] <==> store[i] == word[i] || store[i] == upper[i]
      {
      }
    }
  }

  /**
   Remove Ads holds exactly for a customer with the entitlement whose dates and record prove
   it, or who has an active promotional grant.
   */
  lemma RemoveAdsIsGrantOrRecord(c: Customer, production: bool, now: Instant, s: Snapshot)
    requires Accepts(c, production, now) && Describes(c, production, now, s)
    ensures s.removeAdsProductId.Some? <==>
      && "remove_ads" in c.entitlements
      && ((exists it :: Holds(c, it) && GrantsAccess(it, production, now))
          || (Running(c.entitlements["remove_ads"].expiresDate, c.entitlements["remove_ads"].graceDate, now)
              && exists it :: Holds(c, it) && Proves(it, c.entitlements["remove_ads"], production)))
  {
    if REMOVE_ADS in c.entitlements {
      var e := c.entitlements[REMOVE_ADS];
      var it := OneRecordBacks(c, REMOVE_ADS, production, now);
      RunningMeaning(e.expiresDate, e.graceDate, now);
      GrantsAreActive(c, production, now);
      forall other | Holds(c, other) && Proves(other, e, production)
        ensures other == it
      {
        assert Backs(other, e);
      }
      assert Usable(it.source, production) ==> Proves(it, e, production);
      hide Holds, GrantsAccess, Running, ActiveGrant;
    }
  }

  lemma GrantsAreActive(c: Customer, production: bool, now: Instant)
    ensures AnyGrant(c, production, now) <==> exists it :: Holds(c, it) && GrantsAccess(it, production, now)
  {
    hide Holds, ActiveGrant, GrantsAccess;
    forall it
      ensures ActiveGrant(it, production, now) <==> GrantsAccess(it, production, now)
    {
      ActiveIsGranting(it, production, now);
    }
  }

  lemma ActiveIsGranting(it: Item, production: bool, now: Instant)
    ensures ActiveGrant(it, production, now) <==> GrantsAccess(it, production, now)
  {
    hide PromotionalStore, SpellsPromotional;
    if it.source.Source? {
      RunningMeaning(it.source.expiresDate, it.source.graceDate, now);
      if it.source.store.Text? {
        PromotionalIsSpelled(it.source.store.text);
      }
    }
  }

  /** One active grant outlasts another: it still gives access whenever the other does. */
  ghost predicate Outlasts(it: Item, other: Item, production: bool) {
    forall t: Instant :: t < DATETIME_MAX && GrantsAccess(other, production, t) ==> GrantsAccess(it, production, t)
  }

  /** Which product Remove Ads shows: that of an active grant that outlasts all others, or else the entitlement's. */
  lemma RemoveAdsShowsLongestGrant(c: Customer, production: bool, now: Instant, s: Snapshot)
    requires Accepts(c, production, now) && Describes(c, production, now, s) && s.removeAdsProductId.Some?
    ensures if exists it :: Holds(c, it) && GrantsAccess(it, production, now)
      then exists it :: Holds(c, it) && GrantsAccess(it, production, now) && s.removeAdsProductId.value == it.product
             && forall other :: Holds(c, other) && GrantsAccess(other, production, now) ==> Outlasts(it, other, production)
      else "remove_ads" in c.entitlements && c.entitlements["remove_ads"].Entitlement?
           && c.entitlements["remove_ads"].productId == Text(s.removeAdsProductId.value)
  {
    GrantsAreActive(c, production, now);
    if AnyGrant(c, production, now) {
      var it :| LongestGrant(c, production, now, it) && it.product == s.removeAdsProductId.value;
      hide Holds, Accepts, GrantsAccess, Outlasts, ActiveGrant, RemoveAdsRule;
      ActiveIsGranting(it, production, now);
      forall other | Holds(c, other) && GrantsAccess(other, production, now)
        ensures Outlasts(it, other, production)
      {
        ActiveIsGranting(other, production, now);
        LaterDeadlineOutlasts(it, other, production, now);
      }
    }
  }

  lemma LaterDeadlineOutlasts(it: Item, other: Item, production: bool, now: Instant)
    requires ActiveGrant(it, production, now) && ActiveGrant(other, production, now)
    requires Deadline(OwnExpiry(other.source)) <= Deadline(OwnExpiry(it.source))
    ensures Outlasts(it, other, production)
  {
    hide Grant, Usable, GrantsAccess;
    forall t: Instant | t < DATETIME_MAX && GrantsAccess(other, production, t)
      ensures GrantsAccess(it, production, t)
    {
      ActiveIsGranting(it, production, t);
      ActiveIsGranting(other, production, t);
    }
  }

  // ---------------------------------------------------------- iteration order

  /** The same entries in any order. */
  ghost predicate SameEntries<V(!new)>(a: Table<V>, b: Table<V>) {
    forall entry :: entry in a <==> entry in b
  }

  lemma SameEntriesSameMap<V(!new)>(a: Table<V>, b: Table<V>)
    requires SameEntries(a, b)
    ensures AsMap(a) == AsMap(b)
  {
    forall k | k in AsMap(a)
      ensures k in AsMap(b) && AsMap(b)[k] == AsMap(a)[k]
    {
      var i :| 0 <= i < |a| && a[i].0 == k;
      assert a[i] in b;
    }
    forall k | k in AsMap(b)
      ensures k in AsMap(a)
    {
      var i :| 0 <= i < |b| && b[i].0 == k;
      assert b[i] in a;
    }
  }

  ghost predicate Reordered(p: Payload, q: Payload) {
    && Decoded(p) && Decoded(q)
    && SameEntries(p.entitlements.entries, q.entitlements.entries)
    && SameEntries(p.subscriptions.entries, q.subscriptions.entries)
    && SameEntries(p.nonSubscriptions.entries, q.nonSubscriptions.entries)
  }

  lemma ReorderedSameCustomer(p: Payload, q: Payload)
    requires Reordered(p, q)
    ensures CustomerOf(p) == CustomerOf(q)
  {
    SameEntriesSameMap(p.entitlements.entries, q.entitlements.entries);
    SameEntriesSameMap(p.subscriptions.entries, q.subscriptions.entries);
    SameEntriesSameMap(p.nonSubscriptions.entries, q.nonSubscriptions.entries);
  }

  /**
   Reordering the three dictionaries changes neither acceptance nor the snapshot, except
   for the Remove Ads product when two grants are longest.
   */
  lemma OrderIndependence(p: Payload, q: Payload, production: bool, now: Instant, s: Snapshot, t: Snapshot)
    requires Reordered(p, q)
    ensures Accepts(CustomerOf(p), production, now) <==> Accepts(CustomerOf(q), production, now)
    ensures
      (Accepts(CustomerOf(p), production, now)
       && Describes(CustomerOf(p), production, now, s) && Describes(CustomerOf(q), production, now, t)) ==>
        && s.(removeAdsProductId := None) == t.(removeAdsProductId := None)
        && s.removeAdsProductId.Some? == t.removeAdsProductId.Some?
        && (s != t ==> Tied(CustomerOf(p), production, now))
  {
    ReorderedSameCustomer(p, q);
    hide Accepts, Describes, CustomerOf, Tied;
    var c := CustomerOf(p);
    if Accepts(c, production, now) && Describes(c, production, now, s) && Describes(c, production, now, t) {
      SnapshotDetermined(c, production, now, s, t);
    }
  }

  /** Two different grants last longest. */
  ghost predicate Tied(c: Customer, production: bool, now: Instant) {
    exists a, b :: LongestGrant(c, production, now, a) && LongestGrant(c, production, now, b) && a != b
  }

  lemma SnapshotDetermined(c: Customer, production: bool, now: Instant, s: Snapshot, t: Snapshot)
    requires Accepts(c, production, now)
    requires Describes(c, production, now, s) && Describes(c, production, now, t)
    ensures s.(removeAdsProductId := None) == t.(removeAdsProductId := None)
    ensures s.removeAdsProductId.Some? == t.removeAdsProductId.Some?
    ensures s != t ==> Tied(c, production, now)
  {
    if s.premium {
      var it := OneRecordBacks(c, PREMIUM, production, now);
    }
    if s.removeAdsProductId != t.removeAdsProductId {
      var a :| LongestGrant(c, production, now, a) && a.product == s.removeAdsProductId.value;
      var b :| LongestGrant(c, production, now, b) && b.product == t.removeAdsProductId.value;
      assert a != b;
    }
  }

  /** The payload with one subscription moved to the front. */
  function ToFront(t: Table<Source>, a: nat): (r: Table<Source>)
    requires a < |t|
  {
    [t[a]] + t[..a] + t[a + 1..]
  }

  lemma ToFrontReorders(t: Table<Source>, a: nat)
    requires a < |t|
    ensures SameEntries(t, ToFront(t, a))
  {
    var r := ToFront(t, a);
    forall entry | entry in t
      ensures entry in r
    {
      var i :| 0 <= i < |t| && t[i] == entry;
      assert r[if i < a then i + 1 else if i == a then 0 else i] == entry;
    }
  }

  lemma {:induction false} SubscriptionAt(t: seq<(string, Source)>, shelves: seq<(string, Shelf)>, a: nat)
    requires |shelves| == |t| && forall i :: 0 <= i < |t| ==> shelves[i] == (t[i].0, Shelf([t[i].1]))
    requires a < |t|
    ensures |ItemsIn(shelves, false)| == |t|
    ensures ItemsIn(shelves, false)[a] == Item(t[a].0, false, 0, t[a].1)
  {
    var last := |t| - 1;
    if a < last {
      SubscriptionAt(t[..last], shelves[..last], a);
    } else if last > 0 {
      SubscriptionAt(t[..last], shelves[..last], 0);
    } else {
      assert ItemsIn(shelves[..last], false) == [];
    }
  }

  /** Any longest grant is the one chosen under some order of the subscriptions. */
  lemma SomeOrderChooses(p: Payload, production: bool, now: Instant, it: Item) returns (q: Payload)
    requires Decoded(p) && LongestGrant(CustomerOf(p), production, now, it)
    ensures Chosen(p, q, production, now, it.product)
  {
    var t := p.subscriptions.entries;
    var a :| 0 <= a < |t| && t[a].0 == it.product;
    ToFrontReorders(t, a);
    q := p.(subscriptions := Dict(ToFront(t, a)));
    var items := Subscriptions(q);
    SubscriptionAt(ToFront(t, a), Wrapped(ToFront(t, a)), 0);
    assert items[0] == it;
    SameEntriesSameMap(t, ToFront(t, a));
    ItemsAreHeld(CustomerOf(q), q.subscriptions.entries, q.nonSubscriptions.entries);
    forall b | 0 <= b < |items| && ActiveGrant(items[b], production, now)
      ensures Deadline(OwnExpiry(items[b].source)) <= Deadline(OwnExpiry(it.source))
    {
      assert items[b] in items;
    }
    assert LongestFrom(items, production, now, 0);
  }

  /** The product the parser chooses when it reads p in the order of q. */
  ghost predicate Chosen(p: Payload, q: Payload, production: bool, now: Instant, product: string) {
    Reordered(p, q) && FirstLongest(Subscriptions(q), production, now, product)
  }

  /** The chosen product is the same for every order exactly when no two grants tie. */
  lemma OrderMattersOnlyForTies(p: Payload, production: bool, now: Instant)
    requires Decoded(p)
    ensures
      (forall q, r, x, y :: Chosen(p, q, production, now, x) && Chosen(p, r, production, now, y) ==> x == y)
      <==> !Tied(CustomerOf(p), production, now)
  {
    var c := CustomerOf(p);
    if Tied(c, production, now) {
      var a, b :| LongestGrant(c, production, now, a) && LongestGrant(c, production, now, b) && a != b;
      var q := SomeOrderChooses(p, production, now, a);
      var r := SomeOrderChooses(p, production, now, b);
      assert a.product != b.product;
    } else {
      forall q, r, x, y | Chosen(p, q, production, now, x) && Chosen(p, r, production, now, y)
        ensures x == y
      {
        var a := ChosenIsLongest(p, q, production, now, x);
        var b := ChosenIsLongest(p, r, production, now, y);
      }
    }
  }

  lemma ChosenIsLongest(p: Payload, q: Payload, production: bool, now: Instant, product: string) returns (it: Item)
    requires Chosen(p, q, production, now, product)
    ensures LongestGrant(CustomerOf(p), production, now, it) && it.product == product
  {
    hide CustomerOf, Holds, ItemsIn, Wrapped, NamedPromo, Usable, Unexpired, OwnExpiry, Deadline, SameEntries, Subscriptions;
    ReorderedSameCustomer(p, q);
    GrantsAreListed(q, production, now);
    var items := Subscriptions(q);
    var a :| LongestFrom(items, production, now, a) && items[a].product == product;
    it := items[a];
    assert it in items;
    forall other | Holds(CustomerOf(q), other) && ActiveGrant(other, production, now)
      ensures Deadline(OwnExpiry(other.source)) <= Deadline(OwnExpiry(it.source))
    {
      var b :| 0 <= b < |items| && items[b] == other;
    }
  }

  lemma GrantsAreListed(q: Payload, production: bool, now: Instant)
    requires Decoded(q)
    ensures forall it :: it in Subscriptions(q) ==> Holds(CustomerOf(q), it)
    ensures forall it :: Holds(CustomerOf(q), it) && ActiveGrant(it, production, now) ==> it in Subscriptions(q)
  {
    hide ItemsIn, Wrapped, Holds, Usable, ParseCandidate;
    ItemsAreHeld(CustomerOf(q), q.subscriptions.entries, q.nonSubscriptions.entries);
  }
}
