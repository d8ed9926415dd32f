/**
 The declarative rule behind the subscriber parser: which decoded customers are accepted
 at an instant, and what access an accepted customer has.  Nothing here depends on the
 order of a dictionary or on the passes the parser makes.
 */
module AccessRule {
  import opened Prelude
  import opened Evidence

  datatype Customer = Customer(
    entitlements: map<string, Entitlement>,
    subscriptions: map<string, Source>,
    nonSubscriptions: map<string, Shelf>)

  const PREMIUM := "premium"
  const REMOVE_ADS := "remove_ads"
  const PROMO_PREFIX := "rc_promo_remove_ads_"

  /** Every value is an object, and every one-time value is a non-empty list of objects. */
  ghost predicate WellShaped(c: Customer) {
    && (forall p :: p in c.subscriptions ==> c.subscriptions[p].Source?)
    && (forall p :: p in c.nonSubscriptions ==> ListsRecords(c.nonSubscriptions[p]))
  }

  predicate ListsRecords(shelf: Shelf) {
    shelf.Shelf? && shelf.records != [] && forall i :: 0 <= i < |shelf.records| ==> shelf.records[i].Source?
  }

  /** The record is one of the customer's, at the place it names. */
  ghost predicate Holds(c: Customer, it: Item) {
    if it.oneTime then
      && it.product in c.nonSubscriptions
      && c.nonSubscriptions[it.product].Shelf?
      && it.index < |c.nonSubscriptions[it.product].records|
      && it.source == c.nonSubscriptions[it.product].records[it.index]
    else
      it.product in c.subscriptions && it.index == 0 && it.source == c.subscriptions[it.product]
  }

  // -------------------------------------------------------------- identities

  /** The record names no other product and says when it was bought. */
  predicate Identified(product: string, source: Source) {
    source.Source? && NamesProduct(source.productId, product) && source.purchaseDate.At?
  }

  function IdentityOf(product: string, source: Source): Identity
    requires Identified(product, source)
  {
    Identity(product, source.purchaseDate.at)
  }

  ghost predicate AllIdentified(c: Customer) {
    forall it :: Holds(c, it) ==> Identified(it.product, it.source)
  }

  /** No two records share product and purchase date. */
  ghost predicate DistinctEvidence(c: Customer)
    requires AllIdentified(c)
  {
    forall a, b :: Holds(c, a) && Holds(c, b) ==>
      IdentityOf(a.product, a.source) == IdentityOf(b.product, b.source) ==> a == b
  }

  predicate Keyed(e: Entitlement) {
    e.Entitlement? && ReadText(e.productId).Accepted? && e.purchaseDate.At?
  }

  function KeyOf(e: Entitlement): Identity
    requires Keyed(e)
  {
    Identity(e.productId.text, e.purchaseDate.at)
  }

  ghost predicate AllKeyed(c: Customer) {
    forall n :: n in c.entitlements ==> Keyed(c.entitlements[n])
  }

  /** The entitlements that rest on one purchase. */
  ghost function Owners(c: Customer, id: Identity): set<string>
    requires AllKeyed(c)
  {
    set n | n in c.entitlements && KeyOf(c.entitlements[n]) == id
  }

  // --------------------------------------------------- promotional Remove Ads

  predicate NamedPromo(it: Item) {
    !it.oneTime && PROMO_PREFIX <= it.product
  }

  /** A promotional Remove Ads grant: the name says so and so does the store. */
  predicate Grant(it: Item) {
    && NamedPromo(it)
    && it.source.Source?
    && it.source.store.Text?
    && PromotionalStore(it.source.store.text)
  }

  /** The grant reads against its own dates. */
  predicate GrantReadable(it: Item)
    requires it.source.Source? && it.source.purchaseDate.At?
  {
    && !it.source.expiresDate.Absent?
    && !it.source.expiresDate.Malformed?
    && !it.source.graceDate.Malformed?
    && ParseCandidate(it.source, it.product, it.source.purchaseDate.at,
                      TimeOf(it.source.expiresDate), TimeOf(it.source.graceDate), true).Accepted?
  }

  predicate ActiveGrant(it: Item, production: bool, now: Instant) {
    Grant(it) && Usable(it.source, production) && Unexpired(OwnExpiry(it.source), now)
  }

  /** An active promotional grant rests on this purchase. */
  ghost predicate Granted(c: Customer, production: bool, now: Instant, id: Identity)
    requires AllIdentified(c)
  {
    exists it :: Holds(c, it) && ActiveGrant(it, production, now) && IdentityOf(it.product, it.source) == id
  }

  /** Ownership once each active promotional grant belongs to Remove Ads. */
  ghost function ClaimedOwners(c: Customer, production: bool, now: Instant, id: Identity): set<string>
    requires AllIdentified(c) && AllKeyed(c)
  {
    if Granted(c, production, now, id) then {REMOVE_ADS} else Owners(c, id)
  }

  /** The ownership map a scan sees: grants are claimed only for a customer with Remove Ads. */
  ghost function ExtendedOwners(c: Customer, production: bool, now: Instant, id: Identity): set<string>
    requires AllIdentified(c) && AllKeyed(c)
  {
    if REMOVE_ADS in c.entitlements then ClaimedOwners(c, production, now, id) else Owners(c, id)
  }

  /** Every promotional subscription reads, and no active grant serves another entitlement. */
  ghost predicate GrantsInOrder(c: Customer, production: bool, now: Instant)
    requires AllIdentified(c) && AllKeyed(c)
  {
    && (forall it :: Holds(c, it) && NamedPromo(it) ==> ReadText(it.source.store).Accepted?)
    && (forall it :: Holds(c, it) && Grant(it) ==> GrantReadable(it))
    && (forall it :: Holds(c, it) && ActiveGrant(it, production, now) ==>
          Owners(c, IdentityOf(it.product, it.source)) <= {REMOVE_ADS})
  }

  // ------------------------------------------------------- entitlement backing

  function ReadAgainst(it: Item, e: Entitlement): Outcome<Option<Candidate>>
    requires Keyed(e)
  {
    ParseCandidate(it.source, it.product, e.purchaseDate.at, TimeOf(e.expiresDate), TimeOf(e.graceDate), !it.oneTime)
  }

  /** Access under the entitlement ends when its own expiry and grace period are over. */
  function EntitledUntil(e: Entitlement): Option<Instant>
    requires Keyed(e)
  {
    EffectiveExpiry(TimeOf(e.expiresDate), TimeOf(e.graceDate))
  }

  predicate Backs(it: Item, e: Entitlement)
    requires Identified(it.product, it.source) && Keyed(e)
  {
    IdentityOf(it.product, it.source) == KeyOf(e)
  }

  predicate ReadableAside(source: Source) {
    source.Source? && source.isSandbox.Some? && ReadText(source.store).Accepted?
  }

  predicate DatesReadable(source: Source)
    requires source.Source?
  {
    && !source.expiresDate.Malformed?
    && !source.graceDate.Malformed?
    && !source.refundedAt.Malformed?
    && (source.refundedAt.At? || !source.revokedAt.Malformed?)
  }

  /** The record could grant access on its own at this instant. */
  predicate Live(source: Source, now: Instant)
    requires source.Source?
  {
    Kept(source) && Unexpired(OwnExpiry(source), now)
  }

  /** Every record outside the entitlement has one owner, or can be read and is not live. */
  ghost predicate NoStrayEvidence(c: Customer, production: bool, now: Instant, matched: Identity)
    requires AllIdentified(c) && AllKeyed(c)
  {
    forall it :: Holds(c, it) ==>
      && ReadableAside(it.source)
      && (var id := IdentityOf(it.product, it.source);
          id == matched || |ExtendedOwners(c, production, now, id)| == 1
          || (DatesReadable(it.source) && !Live(it.source, now)))
  }

  /** The entitlement reads, a readable record backs it, and nothing strays. */
  ghost predicate Evidenced(c: Customer, e: Entitlement, production: bool, now: Instant)
    requires AllIdentified(c) && AllKeyed(c) && Keyed(e)
  {
    && !e.expiresDate.Malformed?
    && !e.graceDate.Malformed?
    && (forall it :: Holds(c, it) && it.product == e.productId.text ==> ReadAgainst(it, e).Accepted?)
    && (exists it :: Holds(c, it) && Backs(it, e))
    && NoStrayEvidence(c, production, now, KeyOf(e))
  }

  /** The entitlement is evidenced and alone owns its purchase. */
  ghost predicate Supported(c: Customer, name: string, production: bool, now: Instant)
    requires AllIdentified(c) && AllKeyed(c) && name in c.entitlements
  {
    var e := c.entitlements[name];
    ExtendedOwners(c, production, now, KeyOf(e)) == {name} && Evidenced(c, e, production, now)
  }

  // ------------------------------------------------------------------ the rule

  /** The subscriber is taken as evidence; anything else leaves local access as it is. */
  ghost predicate Accepts(c: Customer, production: bool, now: Instant) {
    && WellShaped(c)
    && AllIdentified(c)
    && DistinctEvidence(c)
    && AllKeyed(c)
    && (REMOVE_ADS in c.entitlements ==>
          GrantsInOrder(c, production, now) && Supported(c, REMOVE_ADS, production, now))
    && (PREMIUM in c.entitlements ==>
          !c.entitlements[PREMIUM].expiresDate.Absent? && Supported(c, PREMIUM, production, now))
  }

  /** A usable, unexpired record backs the entitlement. */
  ghost predicate Entitled(c: Customer, name: string, production: bool, now: Instant)
    requires AllIdentified(c) && AllKeyed(c)
  {
    && name in c.entitlements
    && Unexpired(EntitledUntil(c.entitlements[name]), now)
    && exists it :: Holds(c, it) && Backs(it, c.entitlements[name]) && Usable(it.source, production)
  }

  ghost predicate PremiumDetails(c: Customer, s: Snapshot)
    requires AllIdentified(c) && AllKeyed(c) && PREMIUM in c.entitlements
  {
    var e := c.entitlements[PREMIUM];
    && s.expiresAt == EntitledUntil(e)
    && s.productId == Some(e.productId.text)
    && forall it :: Holds(c, it) && Backs(it, e) ==>
         && s.willRenew == (!it.oneTime && !Promotional(it.source) && !it.source.unsubscribedAt.At?)
         && s.isTrial == (it.source.periodType == Text("trial"))
  }

  /** A grant that lasts at least as long as every other active grant. */
  ghost predicate LongestGrant(c: Customer, production: bool, now: Instant, it: Item) {
    && Holds(c, it)
    && ActiveGrant(it, production, now)
    && forall other :: Holds(c, other) && ActiveGrant(other, production, now) ==>
         Deadline(OwnExpiry(other.source)) <= Deadline(OwnExpiry(it.source))
  }

  /** No expiry counts as datetime.max. */
  function Deadline(expiry: Option<Instant>): Instant {
    if expiry.Some? then expiry.value else DATETIME_MAX
  }

  ghost predicate AnyGrant(c: Customer, production: bool, now: Instant) {
    exists it :: Holds(c, it) && ActiveGrant(it, production, now)
  }

  ghost predicate RemoveAdsRule(c: Customer, production: bool, now: Instant, product: Option<string>)
    requires AllIdentified(c) && AllKeyed(c)
  {
    if REMOVE_ADS !in c.entitlements then product == None
    else if AnyGrant(c, production, now) then
      product.Some? && exists it :: LongestGrant(c, production, now, it) && it.product == product.value
    else if Entitled(c, REMOVE_ADS, production, now) then
      product == Some(c.entitlements[REMOVE_ADS].productId.text)
    else product == None
  }

  /** What the snapshot of an accepted customer says. */
  ghost predicate Describes(c: Customer, production: bool, now: Instant, s: Snapshot)
    requires AllIdentified(c) && AllKeyed(c)
  {
    && (s.premium <==> Entitled(c, PREMIUM, production, now))
    && (s.premium ==> PremiumDetails(c, s))
    && (!s.premium ==> s.expiresAt == None && s.productId == None && !s.willRenew && !s.isTrial)
    && RemoveAdsRule(c, production, now, s.removeAdsProductId)
  }
}
