/**
 The decoded RevenueCat subscriber and the field readers of app/services/purchase.py.
 A field keeps what the code can tell apart: absent, JSON null, a value of the wrong
 type or format, or a readable value.
 */
module Evidence {
  import opened Prelude

  // datetime.min and datetime.max in microseconds since the Unix epoch.
  const DATETIME_MIN := -62135596800000000
  const DATETIME_MAX := 253402300799999999

  type Instant = t: int | DATETIME_MIN <= t <= DATETIME_MAX witness 0

  datatype TimeField = Absent | Null | Malformed | At(at: Instant)

  datatype TextField = NoText | NotText | Text(text: string)

  /** One purchase record; isSandbox is None when absent or not a boolean. */
  datatype Source =
    | NotARecord
    | Source(
        isSandbox: Option<bool>,
        store: TextField,
        periodType: TextField,
        productId: TextField,
        purchaseDate: TimeField,
        expiresDate: TimeField,
        graceDate: TimeField,
        refundedAt: TimeField,
        revokedAt: TimeField,
        unsubscribedAt: TimeField)

  /** The value stored for one product of the non-subscription container. */
  datatype Shelf = NotAList | Shelf(records: seq<Source>)

  datatype Entitlement =
    | NotAnEntitlement
    | Entitlement(
        productId: TextField,
        purchaseDate: TimeField,
        expiresDate: TimeField,
        graceDate: TimeField)

  datatype Container<+V> = NotADict | Dict(entries: V)

  /** NoSubscriber: the payload or its subscriber is not an object. */
  datatype Payload =
    | NoSubscriber
    | Subscriber(
        entitlements: Container<Table<Entitlement>>,
        subscriptions: Container<Table<Source>>,
        nonSubscriptions: Container<Table<Shelf>>)

  /** What identifies a purchase: the product and when it was bought. */
  datatype Identity = Identity(product: string, purchasedAt: Instant)

  /** A record with its place in the payload; a subscription has index 0. */
  datatype Item = Item(product: string, oneTime: bool, index: nat, source: Source)

  datatype Candidate = Candidate(
    sandbox: bool,
    expiresAt: Option<Instant>,
    willRenew: bool,
    isTrial: bool,
    blocked: bool)

  datatype Snapshot = Snapshot(
    premium: bool,
    expiresAt: Option<Instant>,
    productId: Option<string>,
    willRenew: bool,
    isTrial: bool,
    removeAdsProductId: Option<string>)

  // ------------------------------------------------------------ field readers

  function ReadTime(field: TimeField, required: bool): Outcome<Option<Instant>> {
    match field
    case Absent => if required then Rejected else Accepted(None)
    case Null => Accepted(None)
    case Malformed => Rejected
    case At(t) => Accepted(Some(t))
  }

  function ReadText(field: TextField): Outcome<string> {
    if field.Text? && field.text != "" then Accepted(field.text) else Rejected
  }

  /** The instant a field holds; None for a field without one. */
  function TimeOf(field: TimeField): Option<Instant> {
    if field.At? then Some(field.at) else None
  }

  predicate NamesProduct(field: TextField, product: string) {
    field.NoText? || field == Text(product)
  }

  function EffectiveExpiry(expiresAt: Option<Instant>, graceAt: Option<Instant>): Option<Instant> {
    if expiresAt.Some? && graceAt.Some? && graceAt.value > expiresAt.value then graceAt else expiresAt
  }

  predicate Unexpired(expiry: Option<Instant>, now: Instant) {
    expiry.None? || expiry.value > now
  }

  /**
   str.lower on the letters A to Z.  No character outside that range lower-cases to a
   letter of "promotional", so the comparison with it is exact.
   */
  function Lower(s: string): string {
    seq(|s|, i requires 0 <= i < |s| => if 'A' <= s[i] <= 'Z' then s[i] - 'A' + 'a' else s[i])
  }

  predicate PromotionalStore(store: string) {
    Lower(store) == "promotional"
  }

  /** period_type with the default of a record that is not a subscription. */
  function ReadPeriod(field: TextField, isSubscription: bool): Outcome<string> {
    if isSubscription then ReadText(field)
    else if field.NoText? then Accepted("normal")
    else if field.Text? then Accepted(field.text)
    else Rejected
  }

  /** `_parse_candidate`: one record read against one entitlement, None if bought at another time. */
  function ParseCandidate(
    source: Source,
    product: string,
    purchaseAt: Instant,
    entitlementExpiresAt: Option<Instant>,
    entitlementGraceAt: Option<Instant>,
    isSubscription: bool
  ): Outcome<Option<Candidate>>
  {
    if source.NotARecord? || source.isSandbox.None? then Rejected
    else
      var store :- ReadText(source.store);
      var period :- ReadPeriod(source.periodType, isSubscription);
      if !NamesProduct(source.productId, product) then Rejected
      else
        var boughtAt :- ReadTime(source.purchaseDate, true);
        if boughtAt != Some(purchaseAt) then Accepted(None)
        else
          var ownExpiry :- ReadTime(source.expiresDate, isSubscription);
          var ownGrace :- ReadTime(source.graceDate, false);
          if !source.expiresDate.Absent? && ownExpiry != entitlementExpiresAt then Rejected
          else if ownGrace != entitlementGraceAt
                  && (!source.graceDate.Absent? || entitlementGraceAt.Some?) then Rejected
          else
            var promotional := PromotionalStore(store) || period == "promotional";
            var expiresAt := if ownExpiry.Some? then ownExpiry else entitlementExpiresAt;
            if expiresAt.None? && isSubscription && !promotional then Rejected
            else
              var refunded :- ReadTime(source.refundedAt, false);
              var revoked :- ReadTime(source.revokedAt, false);
              if refunded.Some? || revoked.Some? then
                Accepted(Some(Candidate(source.isSandbox.value, None, false, false, true)))
              else if isSubscription && !promotional && source.unsubscribedAt.Malformed? then Rejected
              else
                var willRenew := isSubscription && !promotional && !source.unsubscribedAt.At?;
                Accepted(Some(Candidate(
                  source.isSandbox.value,
                  EffectiveExpiry(expiresAt, ownGrace),
                  willRenew,
                  period == "trial",
                  false)))
  }

  // ------------------------------------------------------- what a record means

  /** Paid for and neither refunded nor revoked. */
  predicate Kept(source: Source)
    requires source.Source?
  {
    !source.refundedAt.At? && !source.revokedAt.At?
  }

  /** Evidence the environment accepts: production takes no sandbox purchase. */
  predicate Usable(source: Source, production: bool)
    requires source.Source?
  {
    Kept(source) && (production ==> source.isSandbox != Some(true))
  }

  function OwnExpiry(source: Source): Option<Instant>
    requires source.Source?
  {
    EffectiveExpiry(TimeOf(source.expiresDate), TimeOf(source.graceDate))
  }

  predicate Promotional(source: Source)
    requires source.Source?
  {
    (source.store.Text? && PromotionalStore(source.store.text)) || source.periodType == Text("promotional")
  }

  /**
   A matched record says about access what the record's own fields say, and its expiry is
   the entitlement's: absent fields defer to the entitlement and present ones must agree.
   */
  lemma CandidateMeaning(
    source: Source,
    product: string,
    purchaseAt: Instant,
    expiresAt: Option<Instant>,
    graceAt: Option<Instant>,
    isSubscription: bool)
    requires ParseCandidate(source, product, purchaseAt, expiresAt, graceAt, isSubscription).Accepted?
    ensures source.Source?
    ensures var c := ParseCandidate(source, product, purchaseAt, expiresAt, graceAt, isSubscription).value;
            && (c.Some? <==> source.purchaseDate == At(purchaseAt))
            && (c.Some? ==>
                  && source.isSandbox == Some(c.value.sandbox)
                  && c.value.blocked == !Kept(source)
                  && (source.expiresDate.Absent? || TimeOf(source.expiresDate) == expiresAt)
                  && TimeOf(source.graceDate) == graceAt
                  && (Kept(source) ==>
                        && c.value.expiresAt == EffectiveExpiry(expiresAt, graceAt)
                        && c.value.willRenew == (isSubscription && !Promotional(source) && !source.unsubscribedAt.At?)
                        && c.value.isTrial == (source.periodType == Text("trial"))))
  {
  }

  /** The fields every matching record needs, whenever it was bought. */
  predicate Legible(source: Source, product: string, isSubscription: bool) {
    && source.Source? && source.isSandbox.Some?
    && source.store.Text? && source.store.text != ""
    && (if isSubscription then source.periodType.Text? && source.periodType.text != "" else !source.periodType.NotText?)
    && (source.productId.NoText? || source.productId == Text(product))
    && (source.purchaseDate.Null? || source.purchaseDate.At?)
  }

  /** The record's own dates do not contradict the entitlement's, and an end is known where one is due. */
  predicate Agrees(source: Source, expiresAt: Option<Instant>, graceAt: Option<Instant>, isSubscription: bool)
    requires source.Source?
  {
    && (source.expiresDate.Absent? ==> !isSubscription)
    && (source.expiresDate.Null? ==> expiresAt.None?)
    && (source.expiresDate.At? ==> expiresAt == Some(source.expiresDate.at))
    && !source.expiresDate.Malformed? && !source.graceDate.Malformed?
    && !source.refundedAt.Malformed? && !source.revokedAt.Malformed?
    && (if source.graceDate.At? then graceAt == Some(source.graceDate.at) else graceAt.None?)
    && (isSubscription && !Promotional(source) ==>
          && source.expiresDate.At?
          && (source.refundedAt.At? || source.revokedAt.At? || !source.unsubscribedAt.Malformed?))
  }

  /** Exactly when a record is rejected: it is illegible, or it is the one bought then and disagrees. */
  lemma CandidateAcceptedIff(
    source: Source,
    product: string,
    purchaseAt: Instant,
    expiresAt: Option<Instant>,
    graceAt: Option<Instant>,
    isSubscription: bool)
    ensures ParseCandidate(source, product, purchaseAt, expiresAt, graceAt, isSubscription).Accepted?
       <==> Legible(source, product, isSubscription)
            && (source.purchaseDate == At(purchaseAt) ==> Agrees(source, expiresAt, graceAt, isSubscription))
  {
    hide PromotionalStore;
  }
}
