/**
 The local projection of a subscription: reading a proposal, applying it, and the settings
 the apply touches (app/services/purchase.py and app/jobs/subscription_jobs.py).
 */
module Projection {
  import opened Prelude
  import opened Evidence

  datatype Json =
    | JNull
    | JBool(flag: bool)
    | JNumber(number: real)
    | JString(text: string)
    | JList(items: seq<Json>)
    | JDict(fields: map<string, Json>)

  type Fields = map<string, Json>

  /** The columns of a user row the protocol reads and writes. */
  datatype User = User(
    status: string,
    expiresAt: Option<Instant>,
    verifiedAt: Option<Instant>,
    scans: int,
    settings: Fields,
    deleted: bool)

  datatype Verdict = Changed | Unchanged

  /** An immutable read; `stamp` is the ISO text of verifiedAt. */
  datatype Proposal = Proposal(
    beforeStatus: string,
    beforeExpiresAt: Option<Instant>,
    beforeVerifiedAt: Option<Instant>,
    beforeSubscription: Fields,
    beforeRemoveAds: bool,
    snapshot: Snapshot,
    verifiedAt: Instant,
    stamp: string,
    outcome: Verdict)

  /** What apply_free_tier_limits finds: the limits a downgraded user exceeds, and the ISO time. */
  datatype Excess = Excess(limits: Fields, stamp: string)

  datatype Applied = Conflict | Applied(user: User)

  const FREE_SCANS := 3
  const UNLIMITED_SCANS := -1
  const DEFAULT_SCANS := 5

  function StatusOf(s: Snapshot): string {
    if s.premium then "premium" else "free"
  }

  // ------------------------------------------------------------------ settings

  /**
   `_get_subscription_settings`: an object is taken as it is, an empty list or string as an
   empty object, and any other value raises.
   */
  function SubscriptionOf(settings: Fields): Outcome<Fields> {
    if "subscription" !in settings then Accepted(map[])
    else
      match settings["subscription"]
      case JDict(fields) => Accepted(fields)
      case JList(items) => if items == [] then Accepted(map[]) else Rejected
      case JString(text) => if text == "" then Accepted(map[]) else Rejected
      case _ => Rejected
  }

  function Get(fields: Fields, key: string): Json {
    if key in fields then fields[key] else JNull
  }

  /** `value == flag` for a JSON value, False when absent; True and False equal 1 and 0. */
  predicate IsFlag(fields: Fields, key: string, flag: bool) {
    if key !in fields then !flag
    else
      match fields[key]
      case JBool(b) => b == flag
      case JNumber(n) => n == if flag then 1.0 else 0.0
      case _ => false
  }

  function OptionalText(text: Option<string>): Json {
    if text.Some? then JString(text.value) else JNull
  }

  function NonSubscriptions(settings: Fields): Fields {
    var value := Get(settings, "non_subscriptions");
    if value.JDict? then value.fields else map[]
  }

  function ListAt(fields: Fields, key: string): seq<Json> {
    var value := Get(fields, key);
    if value.JList? then value.items else []
  }

  /** The strings of a list, in order. */
  function Strings(items: seq<Json>): seq<string> {
    if items == [] then []
    else (if items[0].JString? then [items[0].text] else []) + Strings(items[1..])
  }

  function TextList(texts: seq<string>): Json {
    JList(seq(|texts|, i requires 0 <= i < |texts| => JString(texts[i])))
  }

  function Without(texts: seq<string>, text: string): seq<string> {
    if texts == [] then []
    else (if texts[0] == text then [] else [texts[0]]) + Without(texts[1..], text)
  }

  function Including(texts: seq<string>, text: string): seq<string> {
    if text in texts then texts else texts + [text]
  }

  /** `_remove_ads_state`, access first. */
  predicate HasRemoveAds(settings: Fields) {
    JString("remove_ads") in ListAt(NonSubscriptions(settings), "entitlements")
  }

  /** `_remove_ads_state`, product history. */
  function Products(settings: Fields): set<string> {
    set text | text in Strings(ListAt(NonSubscriptions(settings), "products"))
  }

  /** `_set_remove_ads_projection` */
  function WithRemoveAds(settings: Fields, product: Option<string>, stamp: string): Fields {
    var held := NonSubscriptions(settings);
    var products := Strings(ListAt(held, "products"));
    var entitlements := Strings(ListAt(held, "entitlements"));
    var products' := if product.None? then products else Including(products, product.value);
    var entitlements' :=
      if product.None? then Without(entitlements, "remove_ads") else Including(entitlements, "remove_ads");
    if products' == products && entitlements' == entitlements then settings
    else
      settings["non_subscriptions" :=
        JDict(held["products" := TextList(products')]["entitlements" := TextList(entitlements')]["updated_at" := JString(stamp)])]
  }

  /** The subscription settings under a snapshot. */
  function WithSnapshot(subscription: Fields, s: Snapshot): Fields {
    if s.premium then
      subscription["product_id" := OptionalText(s.productId)]["will_renew" := JBool(s.willRenew)]["is_trial" := JBool(s.isTrial)]
    else
      (subscription - {"product_id", "is_trial", "billing_issue"})["will_renew" := JBool(false)]
  }

  // ------------------------------------------------------------ read and apply

  predicate Matches(u: User, subscription: Fields, s: Snapshot) {
    && u.status == StatusOf(s)
    && u.expiresAt == s.expiresAt
    && Get(subscription, "product_id") == OptionalText(s.productId)
    && IsFlag(subscription, "will_renew", s.willRenew)
    && IsFlag(subscription, "is_trial", s.isTrial)
    && HasRemoveAds(u.settings) == s.removeAdsProductId.Some?
    && (s.removeAdsProductId.Some? ==> s.removeAdsProductId.value in Products(u.settings))
  }

  /** The comparison part of `read_reconciliation`. */
  function Read(u: User, s: Snapshot, verifiedAt: Instant, stamp: string): Outcome<Proposal> {
    var subscription :- SubscriptionOf(u.settings);
    Accepted(Proposal(
      u.status, u.expiresAt, u.verifiedAt, subscription, HasRemoveAds(u.settings), s, verifiedAt, stamp,
      if Matches(u, subscription, s) then Unchanged else Changed))
  }

  /** The row still has the baseline the proposal was read from. */
  predicate Current(u: User, p: Proposal) {
    && u.status == p.beforeStatus
    && u.expiresAt == p.beforeExpiresAt
    && u.verifiedAt == p.beforeVerifiedAt
    && SubscriptionOf(u.settings) == Accepted(p.beforeSubscription)
    && HasRemoveAds(u.settings) == p.beforeRemoveAds
  }

  function Downgraded(u: User, excess: Excess): User {
    var settings :=
      if excess.limits == map[] then u.settings
      else u.settings["limits_exceeded" := JDict(excess.limits)]["downgraded_at" := JString(excess.stamp)];
    u.(scans := FREE_SCANS, settings := settings)
  }

  function Upgraded(u: User): User {
    if "limits_exceeded" in u.settings || "downgraded_at" in u.settings
    then u.(scans := UNLIMITED_SCANS, settings := u.settings - {"limits_exceeded", "downgraded_at"})
    else u
  }

  /** The row with the columns of the proposal's snapshot. */
  function Written(u: User, p: Proposal): User {
    var settings := u.settings["subscription" := JDict(WithSnapshot(p.beforeSubscription, p.snapshot))];
    u.(status := StatusOf(p.snapshot),
       expiresAt := p.snapshot.expiresAt,
       verifiedAt := Some(p.verifiedAt),
       settings := WithRemoveAds(settings, p.snapshot.removeAdsProductId, p.stamp))
  }

  /** The row a current proposal leaves. */
  function Projected(u: User, p: Proposal, excess: Excess): User {
    if p.outcome.Unchanged? then u.(verifiedAt := Some(p.verifiedAt))
    else
      var written := Written(u, p);
      if p.beforeStatus == "premium" && !p.snapshot.premium then Downgraded(written, excess)
      else if p.beforeStatus != "premium" && p.snapshot.premium then Upgraded(written)
      else written
  }

  /** `apply_reconciliation`; Rejected when the row's subscription settings do not convert. */
  function Apply(u: User, p: Proposal, excess: Excess): Outcome<Applied> {
    if u.deleted || u.status != p.beforeStatus || u.expiresAt != p.beforeExpiresAt
       || u.verifiedAt != p.beforeVerifiedAt then Accepted(Conflict)
    else
      var subscription :- SubscriptionOf(u.settings);
      if subscription != p.beforeSubscription || HasRemoveAds(u.settings) != p.beforeRemoveAds
      then Accepted(Conflict)
      else Accepted(Applied(Projected(u, p, excess)))
  }

  // ------------------------------------------------------------ AI-scan quota

  /** `is_subscription_active` */
  predicate Active(u: User, now: Instant) {
    u.status == "premium" && (u.verifiedAt.Some? || Unexpired(u.expiresAt, now))
  }

  /** `scan_image`: refused without quota, free when the image was scanned before or premium is active. */
  function Scanned(u: User, cached: bool, now: Instant): Outcome<User> {
    if Active(u, now) || (u.scans > 0 && cached) then Accepted(u)
    else if u.scans <= 0 then Rejected
    else Accepted(u.(scans := u.scans - 1))
  }

  // ------------------------------------------------------------------- the row

  /** The user object whose columns the apply assigns one after the other. */
  class UserRow {
    var status: string
    var expiresAt: Option<Instant>
    var verifiedAt: Option<Instant>
    var scans: int
    var settings: Fields
    var deleted: bool

    function State(): User
      reads this
    {
      User(status, expiresAt, verifiedAt, scans, settings, deleted)
    }

    /** `_set_remove_ads_projection` */
    method SetRemoveAds(product: Option<string>, stamp: string)
      modifies this`settings
      ensures settings == WithRemoveAds(old(settings), product, stamp)
    {
      var held := NonSubscriptions(settings);
      var products := Strings(ListAt(held, "products"));
      var entitlements := Strings(ListAt(held, "entitlements"));
      var beforeProducts, beforeEntitlements := products, entitlements;
      if product.None? {
        entitlements := Without(entitlements, "remove_ads");
      } else {
        if product.value !in products {
          products := products + [product.value];
        }
        if "remove_ads" !in entitlements {
          entitlements := entitlements + ["remove_ads"];
        }
      }
      if beforeProducts == products && beforeEntitlements == entitlements {
        return;
      }
      held := held["products" := TextList(products)];
      held := held["entitlements" := TextList(entitlements)];
      held := held["updated_at" := JString(stamp)];
      settings := settings["non_subscriptions" := JDict(held)];
    }

    /** `apply_free_tier_limits` */
    method ApplyFreeTierLimits(excess: Excess)
      modifies this`scans, this`settings
      ensures State() == Downgraded(old(State()), excess)
      ensures scans == 3
      ensures excess.limits == map[] ==> settings == old(settings)
      ensures excess.limits != map[] ==>
        && settings - {"limits_exceeded", "downgraded_at"} == old(settings) - {"limits_exceeded", "downgraded_at"}
        && "limits_exceeded" in settings && settings["limits_exceeded"] == JDict(excess.limits)
        && "downgraded_at" in settings && settings["downgraded_at"] == JString(excess.stamp)
    {
      scans := FREE_SCANS;
      if excess.limits != map[] {
        settings := settings["limits_exceeded" := JDict(excess.limits)];
        settings := settings["downgraded_at" := JString(excess.stamp)];
      }
    }

    /** `_clear_downgrade_info` */
    method ClearDowngradeInfo()
      modifies this`scans, this`settings
      ensures State() == Upgraded(old(State()))
      ensures settings == old(settings) - {"limits_exceeded", "downgraded_at"}
      ensures scans == if settings == old(settings) then old(scans) else -1
    {
      var changed := false;
      var cleared := settings;
      if "limits_exceeded" in cleared {
        cleared := cleared - {"limits_exceeded"};
        changed := true;
      }
      if "downgraded_at" in cleared {
        cleared := cleared - {"downgraded_at"};
        changed := true;
      }
      if changed {
        assert cleared == settings - {"limits_exceeded", "downgraded_at"};
        settings := cleared;
        scans := UNLIMITED_SCANS;
      }
    }

    /** The assignments of a changed proposal. */
    method WriteSnapshot(p: Proposal, subscription: Fields)
      modifies this`status, this`expiresAt, this`settings
      ensures status == StatusOf(p.snapshot) && expiresAt == p.snapshot.expiresAt
      ensures settings == WithRemoveAds(
        old(settings)["subscription" := JDict(WithSnapshot(subscription, p.snapshot))], p.snapshot.removeAdsProductId, p.stamp)
    {
      status := StatusOf(p.snapshot);
      expiresAt := p.snapshot.expiresAt;
      settings := settings["subscription" := JDict(WithSnapshot(subscription, p.snapshot))];
      SetRemoveAds(p.snapshot.removeAdsProductId, p.stamp);
    }

    /** `apply_reconciliation`: true when applied, false on conflict; a conflict writes nothing. */
    method ApplyReconciliation(p: Proposal, excess: Excess) returns (r: Outcome<bool>)
      modifies this
      ensures r.Rejected? <==> Apply(old(State()), p, excess).Rejected?
      ensures r.Accepted? ==>
        Apply(old(State()), p, excess).value == if r.value then Applied(State()) else Conflict
      ensures r != Accepted(true) ==> State() == old(State())
    {
      if deleted || status != p.beforeStatus || expiresAt != p.beforeExpiresAt || verifiedAt != p.beforeVerifiedAt {
        return Accepted(false);
      }
      var subscription := SubscriptionOf(settings);
      if subscription.Rejected? {
        return Rejected;
      }
      if subscription.value != p.beforeSubscription || HasRemoveAds(settings) != p.beforeRemoveAds {
        return Accepted(false);
      }
      hide WithRemoveAds, WithSnapshot, HasRemoveAds;
      if p.outcome.Changed? {
        WriteSnapshot(p, subscription.value);
      }
      verifiedAt := Some(p.verifiedAt);
      if p.outcome.Changed? && p.beforeStatus == "premium" && !p.snapshot.premium {
        ApplyFreeTierLimits(excess);
      } else if p.outcome.Changed? && p.beforeStatus != "premium" && p.snapshot.premium {
        ClearDowngradeInfo();
      }
      return Accepted(true);
    }

    /** The quota check and decrement of `scan_image`. */
    method ScanImage(cached: bool, now: Instant) returns (r: Outcome<int>)
      modifies this`scans
      ensures r.Rejected? <==> Scanned(old(State()), cached, now).Rejected?
      ensures r.Accepted? ==>
        && Scanned(old(State()), cached, now) == Accepted(State())
        && r.value == if Active(State(), now) then UNLIMITED_SCANS else scans
      ensures r.Rejected? <==> !Active(State(), now) && old(scans) <= 0
      ensures scans == if r.Accepted? && !cached && !Active(State(), now) then old(scans) - 1 else old(scans)
    {
      var premium := Active(State(), now);
      var remaining := if premium then UNLIMITED_SCANS else scans;
      if !premium && remaining <= 0 {
        return Rejected;
      }
      if cached {
        return Accepted(remaining);
      }
      if !premium {
        scans := scans - 1;
        remaining := scans;
      }
      return Accepted(remaining);
    }

    /** `reset_ai_scans` of the admin service. */
    method ResetScans()
      modifies this`scans
      ensures State() == old(State()).(scans := DEFAULT_SCANS)
    {
      scans := DEFAULT_SCANS;
    }
  }
}
