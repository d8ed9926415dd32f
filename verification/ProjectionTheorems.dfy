/** Fixpoint, history and frame of the reconciliation writes, and the AI-scan quota over runs. */
module ProjectionTheorems {
  import opened Prelude
  import opened Evidence
  import opened AccessRule
  import opened Projection

  // --------------------------------------------------------------- list algebra

  lemma {:induction false} StringsOfTexts(texts: seq<string>)
    ensures Strings(TextList(texts).items) == texts
  {
    var items := TextList(texts).items;
    if texts != [] {
      StringsOfTexts(texts[1..]);
      assert items[1..] == TextList(texts[1..]).items;
    }
  }

  lemma {:induction false} InStrings(items: seq<Json>, text: string)
    ensures text in Strings(items) <==> JString(text) in items
  {
    if items != [] {
      InStrings(items[1..], text);
      assert items == [items[0]] + items[1..];
    }
  }

  lemma {:induction false} InWithout(texts: seq<string>, text: string, other: string)
    ensures other in Without(texts, text) <==> other in texts && other != text
  {
    if texts != [] {
      InWithout(texts[1..], text, other);
      assert texts == [texts[0]] + texts[1..];
    }
  }

  lemma {:induction false} WithoutAbsent(texts: seq<string>, text: string)
    requires text !in texts
    ensures Without(texts, text) == texts
  {
    if texts != [] {
      WithoutAbsent(texts[1..], text);
      assert texts == [texts[0]] + texts[1..];
    }
  }

  ghost predicate Holding(settings: Fields, name: string) {
    JString(name) in ListAt(NonSubscriptions(settings), "entitlements")
  }

  /** The projection of Remove Ads: access is as asked, history grows by the product, all else is kept. */
  lemma RemoveAdsProjection(settings: Fields, product: Option<string>, stamp: string)
    ensures var after := WithRemoveAds(settings, product, stamp);
      && HasRemoveAds(after) == product.Some?
      && Products(after) == Products(settings) + (if product.Some? then {product.value} else {})
      && (forall name :: name != "remove_ads" ==> Holding(after, name) == Holding(settings, name))
      && (forall key :: key != "non_subscriptions" ==> (key in after <==> key in settings))
      && (forall key :: key != "non_subscriptions" && key in settings ==> after[key] == settings[key])
  {
    var after := WithRemoveAds(settings, product, stamp);
    ProjectedNames(settings, product, stamp);
    hide WithRemoveAds, NonSubscriptions, ListAt, Strings, Without;
    assert Products(settings) == set text | text in NamesAt(settings, "products");
    assert Products(after) == set text | text in NamesAt(after, "products");
    hide Products;
    assert HasRemoveAds(after) == Holding(after, "remove_ads");
    hide HasRemoveAds;
    forall name
      ensures Holding(after, name) <==> if name == "remove_ads" then product.Some? else Holding(settings, name)
    {
      NamesHold(settings, name);
      NamesHold(after, name);
      InWithout(NamesAt(settings, "entitlements"), "remove_ads", name);
      hide Holding, NamesAt;
    }
    hide Holding, NamesAt;
    forall key | key != "non_subscriptions"
      ensures key in after <==> key in settings
      ensures key in settings ==> after[key] == settings[key]
    {
      assert SameAt(settings, after, key);
    }
  }

  lemma NamesHold(settings: Fields, name: string)
    ensures Holding(settings, name) <==> name in NamesAt(settings, "entitlements")
  {
    InStrings(ListAt(NonSubscriptions(settings), "entitlements"), name);
  }

  /** The strings of one list of the projection. */
  function NamesAt(settings: Fields, key: string): seq<string> {
    Strings(ListAt(NonSubscriptions(settings), key))
  }

  lemma ProjectedNames(settings: Fields, product: Option<string>, stamp: string)
    ensures var after := WithRemoveAds(settings, product, stamp);
      && NamesAt(after, "products") ==
           (if product.None? then NamesAt(settings, "products") else Including(NamesAt(settings, "products"), product.value))
      && NamesAt(after, "entitlements") ==
           (if product.None? then Without(NamesAt(settings, "entitlements"), "remove_ads")
            else Including(NamesAt(settings, "entitlements"), "remove_ads"))
      && forall key :: key != "non_subscriptions" ==> SameAt(settings, after, key)
  {
    var products, entitlements := NamesAt(settings, "products"), NamesAt(settings, "entitlements");
    StringsOfTexts(if product.None? then products else Including(products, product.value));
    StringsOfTexts(if product.None? then Without(entitlements, "remove_ads") else Including(entitlements, "remove_ads"));
  }

  /** Projecting the same access again writes nothing, so its time stamp stays. */
  lemma RepeatedProjectionIsStable(settings: Fields, product: Option<string>, first: string, second: string)
    ensures var once := WithRemoveAds(settings, product, first);
      WithRemoveAds(once, product, second) == once
  {
    var once := WithRemoveAds(settings, product, first);
    RemoveAdsProjection(settings, product, first);
    var held := NonSubscriptions(once);
    var entitlements := Strings(ListAt(held, "entitlements"));
    InStrings(ListAt(held, "entitlements"), "remove_ads");
    if product.None? {
      WithoutAbsent(entitlements, "remove_ads");
    }
  }

  /**
   Exactly when the projection writes: when access is not as asked, or the product is new.  Then
   the record carries the time stamp, and what else it held is kept.
   */
  lemma RemoveAdsWritesIff(settings: Fields, product: Option<string>, stamp: string)
    ensures var after := WithRemoveAds(settings, product, stamp);
      && (after == settings <==>
            && Holding(settings, "remove_ads") == product.Some?
            && (product.Some? ==> JString(product.value) in ListAt(NonSubscriptions(settings), "products")))
      && (after != settings ==> Get(NonSubscriptions(after), "updated_at") == JString(stamp))
      && forall key :: key !in {"products", "entitlements", "updated_at"} ==>
           SameAt(NonSubscriptions(settings), NonSubscriptions(after), key)
  {
    NamesWrite(settings, product, stamp);
    NamesAsked(settings, product);
    hide WithRemoveAds, Holding, NamesAt, Without, Including, NonSubscriptions;
  }

  /** What the projection asks of the two lists of names. */
  predicate NamesStay(settings: Fields, product: Option<string>) {
    var products, entitlements := NamesAt(settings, "products"), NamesAt(settings, "entitlements");
    && (if product.None? then products else Including(products, product.value)) == products
    && (if product.None? then Without(entitlements, "remove_ads") else Including(entitlements, "remove_ads")) == entitlements
  }

  lemma NamesWrite(settings: Fields, product: Option<string>, stamp: string)
    ensures var after := WithRemoveAds(settings, product, stamp);
      && (after == settings <==> NamesStay(settings, product))
      && (after != settings ==> Get(NonSubscriptions(after), "updated_at") == JString(stamp))
      && forall key :: key !in {"products", "entitlements", "updated_at"} ==>
           SameAt(NonSubscriptions(settings), NonSubscriptions(after), key)
  {
    ProjectedNames(settings, product, stamp);
    hide Strings, ListAt, Without, Including;
  }

  lemma NamesAsked(settings: Fields, product: Option<string>)
    ensures NamesStay(settings, product) <==>
      && Holding(settings, "remove_ads") == product.Some?
      && (product.Some? ==> JString(product.value) in ListAt(NonSubscriptions(settings), "products"))
  {
    var entitlements := NamesAt(settings, "entitlements");
    NamesHold(settings, "remove_ads");
    if product.None? {
      InWithout(entitlements, "remove_ads", "remove_ads");
      if "remove_ads" !in entitlements {
        WithoutAbsent(entitlements, "remove_ads");
      }
    } else {
      InStrings(ListAt(NonSubscriptions(settings), "products"), product.value);
    }
    hide Strings, ListAt, NonSubscriptions, Holding, Without;
  }

  // ------------------------------------------------------------------- fixpoint

  /** A snapshot without premium carries no subscription details; the parser makes no other. */
  predicate Plain(s: Snapshot) {
    !s.premium ==> s.expiresAt == None && s.productId == None && !s.willRenew && !s.isTrial
  }

  lemma ParsedSnapshotIsPlain(c: Customer, production: bool, now: Instant, s: Snapshot)
    requires Accepts(c, production, now) && Describes(c, production, now, s)
    ensures Plain(s)
  {
  }

  lemma SideEffectsSpareProjection(u: User, excess: Excess)
    ensures var d := Downgraded(u, excess);
      && SubscriptionOf(d.settings) == SubscriptionOf(u.settings)
      && HasRemoveAds(d.settings) == HasRemoveAds(u.settings)
      && Products(d.settings) == Products(u.settings)
    ensures var d := Upgraded(u);
      && SubscriptionOf(d.settings) == SubscriptionOf(u.settings)
      && HasRemoveAds(d.settings) == HasRemoveAds(u.settings)
      && Products(d.settings) == Products(u.settings)
  {
    assert Get(Downgraded(u, excess).settings, "non_subscriptions") == Get(u.settings, "non_subscriptions");
    assert Get(Upgraded(u).settings, "non_subscriptions") == Get(u.settings, "non_subscriptions");
  }

  /** Writing the subscription settings leaves the projection of Remove Ads alone. */
  lemma SubscriptionIsApart(settings: Fields, subscription: Fields)
    ensures var after := settings["subscription" := JDict(subscription)];
      && Products(after) == Products(settings)
      && forall name :: Holding(after, name) == Holding(settings, name)
  {
    assert NonSubscriptions(settings["subscription" := JDict(subscription)]) == NonSubscriptions(settings);
  }

  lemma WrittenColumns(u: User, p: Proposal)
    ensures var after := Written(u, p);
      && SubscriptionOf(after.settings) == Accepted(WithSnapshot(p.beforeSubscription, p.snapshot))
      && HasRemoveAds(after.settings) == p.snapshot.removeAdsProductId.Some?
      && Products(after.settings) == Products(u.settings)
           + (if p.snapshot.removeAdsProductId.Some? then {p.snapshot.removeAdsProductId.value} else {})
  {
    hide WithRemoveAds, HasRemoveAds, Products, WithSnapshot, Holding;
    var subscription := WithSnapshot(p.beforeSubscription, p.snapshot);
    var settings := u.settings["subscription" := JDict(subscription)];
    RemoveAdsProjection(settings, p.snapshot.removeAdsProductId, p.stamp);
    SubscriptionIsApart(u.settings, subscription);
    assert Written(u, p).settings["subscription"] == JDict(subscription);
  }

  /** A flag as the settings spell it: a boolean, a number equal to it, or absent for False. */
  ghost predicate Says(fields: Fields, key: string, flag: bool) {
    if key in fields then fields[key] == JBool(flag) || fields[key] == JNumber(if flag then 1.0 else 0.0) else !flag
  }

  /** The columns of a row show a snapshot that was verified at the instant. */
  ghost predicate Shows(v: User, s: Snapshot, at: Instant) {
    && v.status == (if s.premium then "premium" else "free")
    && v.expiresAt == s.expiresAt && v.verifiedAt == Some(at)
    && SubscriptionOf(v.settings).Accepted?
    && var subscription := SubscriptionOf(v.settings).value;
       && Get(subscription, "product_id") == (if s.productId.Some? then JString(s.productId.value) else JNull)
       && Says(subscription, "will_renew", s.willRenew) && Says(subscription, "is_trial", s.isTrial)
       && Holding(v.settings, "remove_ads") == s.removeAdsProductId.Some?
       && (s.removeAdsProductId.Some? ==>
             JString(s.removeAdsProductId.value) in ListAt(NonSubscriptions(v.settings), "products"))
  }

  /** The projection columns of the row a changed proposal leaves. */
  lemma ProjectedColumns(u: User, p: Proposal, excess: Excess)
    requires Current(u, p) && p.outcome.Changed?
    ensures var after := Projected(u, p, excess);
      && after.status == StatusOf(p.snapshot)
      && after.expiresAt == p.snapshot.expiresAt
      && after.verifiedAt == Some(p.verifiedAt)
      && SubscriptionOf(after.settings) == Accepted(WithSnapshot(p.beforeSubscription, p.snapshot))
      && HasRemoveAds(after.settings) == p.snapshot.removeAdsProductId.Some?
      && Products(after.settings) == Products(u.settings)
           + (if p.snapshot.removeAdsProductId.Some? then {p.snapshot.removeAdsProductId.value} else {})
  {
    WrittenColumns(u, p);
    SideEffectsSpareProjection(Written(u, p), excess);
    hide WithRemoveAds, HasRemoveAds, Products, WithSnapshot, SubscriptionOf;
  }

  /**
   The subscription settings a changed proposal leaves: with premium the three details of the
   snapshot, without it no product, trial or billing issue and no renewal; all else is kept.
   */
  lemma ProjectedSubscription(u: User, p: Proposal, excess: Excess)
    requires Current(u, p) && p.outcome.Changed?
    ensures SubscriptionOf(u.settings).Accepted? && SubscriptionOf(Projected(u, p, excess).settings).Accepted?
    ensures var before := SubscriptionOf(u.settings).value;
      var after, s := SubscriptionOf(Projected(u, p, excess).settings).value, p.snapshot;
      && "will_renew" in after && after["will_renew"] == JBool(s.premium && s.willRenew)
      && (if s.premium then
            && "product_id" in after && after["product_id"] == (if s.productId.Some? then JString(s.productId.value) else JNull)
            && "is_trial" in after && after["is_trial"] == JBool(s.isTrial)
            && SameAt(before, after, "billing_issue")
          else "product_id" !in after && "is_trial" !in after && "billing_issue" !in after)
      && forall key :: key !in OWN_SUBSCRIPTION_KEYS ==> SameAt(before, after, key)
  {
    ProjectedColumns(u, p, excess);
    hide Projected, HasRemoveAds, Products;
  }

  /** Applying an unchanged proposal writes the verification time and nothing else. */
  lemma UnchangedOnlyVerifies(u: User, p: Proposal, excess: Excess)
    requires p.outcome.Unchanged? && Applies(u, p, excess)
    ensures Apply(u, p, excess).value.user == u.(verifiedAt := Some(p.verifiedAt))
  {
  }

  // ----------------------------------------------------------------------- runs

  /**
   What can happen to one user's row.  An apply may bring a proposal read long before,
   from any row the user once had.
   */
  datatype Event =
    | ApplyRead(origin: User, snapshot: Snapshot, verifiedAt: Instant, stamp: string, excess: Excess)
    | Scan(cached: bool, at: Instant)
    | ResetScans

  function After(u: User, e: Event): User {
    match e
    case ApplyRead(origin, snapshot, verifiedAt, stamp, excess) =>
      (match Read(origin, snapshot, verifiedAt, stamp)
       case Rejected => u
       case Accepted(p) => AfterApply(u, p, excess))
    case Scan(cached, at) =>
      (match Scanned(u, cached, at)
       case Rejected => u
       case Accepted(v) => v)
    case ResetScans => u.(scans := DEFAULT_SCANS)
  }

  function AfterApply(u: User, p: Proposal, excess: Excess): User {
    match Apply(u, p, excess)
    case Accepted(Applied(v)) => v
    case _ => u
  }

  function AfterAll(u: User, events: seq<Event>): User
    decreases |events|
  {
    if events == [] then u else AfterAll(After(u, events[0]), events[1..])
  }

  /** Unlimited quota belongs to provider-verified premium; otherwise the quota is a count. */
  predicate QuotaHonest(u: User) {
    u.scans >= 0 || (u.scans == UNLIMITED_SCANS && u.status == "premium" && u.verifiedAt.Some?)
  }

  /** An apply keeps the quota honest: premium is left only through the downgrade, which resets it. */
  lemma ApplyKeepsQuota(u: User, p: Proposal, excess: Excess)
    requires QuotaHonest(u)
    requires p.outcome.Unchanged? ==> p.beforeStatus == StatusOf(p.snapshot)
    ensures QuotaHonest(AfterApply(u, p, excess))
  {
    hide WithRemoveAds, WithSnapshot, HasRemoveAds, SubscriptionOf;
  }

  lemma StepKeepsQuota(u: User, e: Event)
    requires QuotaHonest(u)
    ensures QuotaHonest(After(u, e))
  {
    if e.ApplyRead? {
      var read := Read(e.origin, e.snapshot, e.verifiedAt, e.stamp);
      if read.Accepted? {
        ApplyKeepsQuota(u, read.value, e.excess);
      }
    }
  }

  /** Over every run a user without active premium has a quota of at least zero. */
  lemma {:induction false} QuotaOverRuns(u: User, events: seq<Event>, now: Instant)
    requires QuotaHonest(u)
    ensures QuotaHonest(AfterAll(u, events))
    ensures !Active(AfterAll(u, events), now) ==> AfterAll(u, events).scans >= 0
    decreases |events|
  {
    if events != [] {
      StepKeepsQuota(u, events[0]);
      QuotaOverRuns(After(u, events[0]), events[1..], now);
    }
  }

  const OWN_KEYS := {"subscription", "non_subscriptions", "limits_exceeded", "downgraded_at"}
  const OWN_SUBSCRIPTION_KEYS := {"product_id", "will_renew", "is_trial", "billing_issue"}

  ghost predicate SameAt(a: Fields, b: Fields, key: string) {
    (key in a <==> key in b) && (key in a ==> a[key] == b[key])
  }

  /** History only grows, and everything the reconciliation does not own keeps its value. */
  ghost predicate Kept(u: User, v: User) {
    && Products(u.settings) <= Products(v.settings)
    && (forall name :: name != "remove_ads" ==> Holding(u.settings, name) == Holding(v.settings, name))
    && (forall key :: key !in OWN_KEYS ==> SameAt(u.settings, v.settings, key))
    && SubscriptionOf(u.settings).Rejected? == SubscriptionOf(v.settings).Rejected?
    && (SubscriptionOf(u.settings).Accepted? ==>
          forall key :: key !in OWN_SUBSCRIPTION_KEYS ==>
            SameAt(SubscriptionOf(u.settings).value, SubscriptionOf(v.settings).value, key))
  }

  lemma SideEffectsKeep(u: User, excess: Excess)
    ensures Kept(u, Downgraded(u, excess)) && Kept(u, Upgraded(u))
  {
    SideEffectsSpareProjection(u, excess);
    assert NonSubscriptions(Downgraded(u, excess).settings) == NonSubscriptions(u.settings);
    assert NonSubscriptions(Upgraded(u).settings) == NonSubscriptions(u.settings);
  }

  lemma KeptTransitive(u: User, v: User, w: User)
    requires Kept(u, v) && Kept(v, w)
    ensures Kept(u, w)
  {
    hide Products, Holding, SubscriptionOf;
  }

  lemma SnapshotKeeps(u: User, p: Proposal)
    requires Current(u, p)
    ensures Kept(u, Written(u, p))
  {
    var subscription := WithSnapshot(p.beforeSubscription, p.snapshot);
    var settings := u.settings["subscription" := JDict(subscription)];
    assert forall key :: key !in OWN_SUBSCRIPTION_KEYS ==> SameAt(p.beforeSubscription, subscription, key);
    SubscriptionIsApart(u.settings, subscription);
    RemoveAdsProjection(settings, p.snapshot.removeAdsProductId, p.stamp);
    hide WithRemoveAds, WithSnapshot, Products, Holding;
    var projected := Written(u, p).settings;
    assert projected["subscription"] == JDict(subscription);
    forall key | key !in OWN_KEYS
      ensures SameAt(u.settings, projected, key)
    {
    }
    hide SameAt;
  }

  lemma ProjectedKeeps(u: User, p: Proposal, excess: Excess)
    requires Current(u, p)
    ensures Kept(u, Projected(u, p, excess))
  {
    if p.outcome.Changed? {
      var written := Written(u, p);
      SnapshotKeeps(u, p);
      SideEffectsKeep(written, excess);
      hide Kept, Written, Downgraded, Upgraded;
      KeptTransitive(u, written, Downgraded(written, excess));
      KeptTransitive(u, written, Upgraded(written));
    }
  }

  lemma StepKeeps(u: User, e: Event)
    ensures Kept(u, After(u, e))
  {
    if e.ApplyRead? {
      var read := Read(e.origin, e.snapshot, e.verifiedAt, e.stamp);
      if read.Accepted? && Apply(u, read.value, e.excess).Accepted? && Apply(u, read.value, e.excess).value.Applied? {
        ProjectedKeeps(u, read.value, e.excess);
      }
    }
  }

  /** Over every run the product history only grows and foreign settings keep their values. */
  lemma {:induction false} HistoryOverRuns(u: User, events: seq<Event>)
    ensures Kept(u, AfterAll(u, events))
    decreases |events|
  {
    if events != [] {
      StepKeeps(u, events[0]);
      HistoryOverRuns(After(u, events[0]), events[1..]);
      KeptTransitive(u, After(u, events[0]), AfterAll(u, events));
    }
  }

  /**
   Reconciliation reaches a fixpoint, downgrade and upgrade included: whenever a proposal is
   applied, however long after it was read, reading the same snapshot again finds nothing to
   change.  The baseline the apply compares does not cover the product history, which can
   only have grown meanwhile.
   */
  lemma ReconciliationFixpoint(
    origin: User, events: seq<Event>, s: Snapshot, verifiedAt: Instant, stamp: string, excess: Excess,
    laterAt: Instant, laterStamp: string)
    requires Plain(s) && Read(origin, s, verifiedAt, stamp).Accepted?
    requires Applies(AfterAll(origin, events), Read(origin, s, verifiedAt, stamp).value, excess)
    ensures var v := AfterApply(AfterAll(origin, events), Read(origin, s, verifiedAt, stamp).value, excess);
      && Read(v, s, laterAt, laterStamp).Accepted?
      && Read(v, s, laterAt, laterStamp).value.outcome == Unchanged
      && forall later :: Apply(v, Read(v, s, laterAt, laterStamp).value, later)
           == Accepted(Applied(v.(verifiedAt := Some(laterAt))))
  {
    var u := AfterAll(origin, events);
    HistoryIsKept(origin, events);
    hide AfterAll, Products, WithRemoveAds, WithSnapshot, HasRemoveAds, Plain;
    AppliedMatches(origin, u, s, verifiedAt, stamp, excess);
    StaysUndeleted(u, Read(origin, s, verifiedAt, stamp).value, excess);
    hide AfterApply, Matches;
  }

  lemma HistoryIsKept(origin: User, events: seq<Event>)
    ensures Products(origin.settings) <= Products(AfterAll(origin, events).settings)
  {
    HistoryOverRuns(origin, events);
  }

  lemma StaysUndeleted(u: User, p: Proposal, excess: Excess)
    requires Applies(u, p, excess)
    ensures !AfterApply(u, p, excess).deleted
    ensures AfterApply(u, p, excess).verifiedAt == Some(p.verifiedAt)
  {
    hide WithRemoveAds, WithSnapshot, HasRemoveAds, SubscriptionOf;
  }

  /**
   What an apply is for: whatever happened since the proposal was read, and whether or not the
   read found something to change, the row that an apply leaves shows the snapshot.
   */
  lemma AppliedRowShowsSnapshot(
    origin: User, events: seq<Event>, s: Snapshot, verifiedAt: Instant, stamp: string, excess: Excess)
    requires Plain(s) && Read(origin, s, verifiedAt, stamp).Accepted?
    requires Applies(AfterAll(origin, events), Read(origin, s, verifiedAt, stamp).value, excess)
    ensures Shows(AfterApply(AfterAll(origin, events), Read(origin, s, verifiedAt, stamp).value, excess), s, verifiedAt)
  {
    var u := AfterAll(origin, events);
    HistoryIsKept(origin, events);
    hide AfterAll, Products, WithRemoveAds, WithSnapshot, HasRemoveAds, Plain, Shows;
    AppliedMatches(origin, u, s, verifiedAt, stamp, excess);
    StaysUndeleted(u, Read(origin, s, verifiedAt, stamp).value, excess);
    hide AfterApply, Matches;
    MatchingShows(AfterApply(u, Read(origin, s, verifiedAt, stamp).value, excess), s, verifiedAt);
  }

  /** A read raises exactly on settings that hold something else than an object or an empty value. */
  lemma ReadAcceptedIff(u: User, s: Snapshot, verifiedAt: Instant, stamp: string)
    ensures Read(u, s, verifiedAt, stamp).Accepted? <==>
      var held := Get(u.settings, "subscription");
      "subscription" !in u.settings || held.JDict? || held == JList([]) || held == JString("")
    ensures Read(u, s, verifiedAt, stamp).Accepted? ==>
      Read(u, s, verifiedAt, stamp).value.beforeSubscription ==
        if Get(u.settings, "subscription").JDict? then u.settings["subscription"].fields else map[]
  {
    hide Matches, HasRemoveAds;
  }

  /** A read proposes no change if and only if the row, the verification time aside, shows the snapshot. */
  lemma UnchangedIffShown(u: User, s: Snapshot, verifiedAt: Instant, stamp: string)
    requires Read(u, s, verifiedAt, stamp).Accepted?
    ensures Read(u, s, verifiedAt, stamp).value.outcome.Unchanged? <==> Shows(u.(verifiedAt := Some(verifiedAt)), s, verifiedAt)
  {
    var v := u.(verifiedAt := Some(verifiedAt));
    if s.removeAdsProductId.Some? {
      InStrings(ListAt(NonSubscriptions(v.settings), "products"), s.removeAdsProductId.value);
    }
    hide NonSubscriptions, ListAt, Strings;
  }

  lemma MatchingShows(v: User, s: Snapshot, at: Instant)
    requires v.verifiedAt == Some(at) && SubscriptionOf(v.settings).Accepted?
    requires Matches(v, SubscriptionOf(v.settings).value, s)
    ensures Shows(v, s, at)
  {
    if s.removeAdsProductId.Some? {
      InStrings(ListAt(NonSubscriptions(v.settings), "products"), s.removeAdsProductId.value);
    }
    hide SubscriptionOf, NonSubscriptions, ListAt, Strings;
  }

  /** What an applied proposal leaves matches its snapshot: the history it read is still there. */
  lemma AppliedMatches(origin: User, u: User, s: Snapshot, verifiedAt: Instant, stamp: string, excess: Excess)
    requires Plain(s) && Read(origin, s, verifiedAt, stamp).Accepted?
    requires Applies(u, Read(origin, s, verifiedAt, stamp).value, excess)
    requires Products(origin.settings) <= Products(u.settings)
    ensures var v := AfterApply(u, Read(origin, s, verifiedAt, stamp).value, excess);
      SubscriptionOf(v.settings).Accepted? && Matches(v, SubscriptionOf(v.settings).value, s)
  {
    var p := Read(origin, s, verifiedAt, stamp).value;
    if p.outcome.Changed? {
      ChangedMatches(u, p, excess);
    } else {
      hide HasRemoveAds, Products;
    }
    hide WithRemoveAds, HasRemoveAds, Products, Projected, Matches;
  }

  lemma ChangedMatches(u: User, p: Proposal, excess: Excess)
    requires Plain(p.snapshot) && Current(u, p) && p.outcome.Changed?
    ensures var v := Projected(u, p, excess);
      SubscriptionOf(v.settings).Accepted? && Matches(v, SubscriptionOf(v.settings).value, p.snapshot)
  {
    ProjectedColumns(u, p, excess);
    SnapshotReads(p.beforeSubscription, p.snapshot);
    hide Projected, HasRemoveAds, Products, SubscriptionOf, WithSnapshot, IsFlag, Get;
  }

  /** Subscription settings under a snapshot read as the snapshot. */
  lemma SnapshotReads(subscription: Fields, s: Snapshot)
    requires Plain(s)
    ensures var after := WithSnapshot(subscription, s);
      && Get(after, "product_id") == OptionalText(s.productId)
      && IsFlag(after, "will_renew", s.willRenew) && IsFlag(after, "is_trial", s.isTrial)
  {
  }

  predicate Applies(u: User, p: Proposal, excess: Excess) {
    Apply(u, p, excess).Accepted? && Apply(u, p, excess).value.Applied?
  }

  /** A proposal applies to the row it was read from while nothing has happened to it. */
  lemma FreshProposalApplies(u: User, s: Snapshot, verifiedAt: Instant, stamp: string, excess: Excess)
    requires !u.deleted && Read(u, s, verifiedAt, stamp).Accepted?
    ensures Applies(u, Read(u, s, verifiedAt, stamp).value, excess)
  {
  }
}
