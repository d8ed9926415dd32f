/** The AI-scan quota over every run: what is charged, what is refused, and what sets it anew. */
module QuotaTheorems {
  import opened Prelude
  import opened Evidence
  import opened Projection
  import opened ProjectionTheorems

  /** Premium the quota check honours: verified by the provider, or without an end, or not yet over. */
  ghost predicate PremiumAt(u: User, at: Instant) {
    u.status == "premium" && (u.verifiedAt.Some? || u.expiresAt.None? || u.expiresAt.value > at)
  }

  /** The scan of a new image without premium, which has to be paid from the quota. */
  ghost predicate Priced(u: User, e: Event) {
    e.Scan? && !e.cached && !PremiumAt(u, e.at)
  }

  // ---------------------------------------------------------------- runs of scans

  ghost predicate OnlyScans(events: seq<Event>) {
    forall i :: 0 <= i < |events| ==> events[i].Scan?
  }

  /** How many of the scans have to be paid; scans leave the columns that decide it alone. */
  ghost function PricedScans(u: User, events: seq<Event>): nat
    decreases |events|
  {
    if events == [] then 0 else (if Priced(u, events[0]) then 1 else 0) + PricedScans(u, events[1..])
  }

  /** How many of them the quota can still pay. */
  function Payable(scans: int, priced: nat): nat {
    if scans <= 0 then 0 else if priced < scans then priced else scans
  }

  lemma OneScan(u: User, e: Event)
    requires e.Scan?
    ensures After(u, e) == if Priced(u, e) && u.scans > 0 then u.(scans := u.scans - 1) else u
    ensures Scanned(u, e.cached, e.at).Accepted? <==> PremiumAt(u, e.at) || u.scans > 0
  {
  }

  /**
   Every run of scans takes from the quota one for each scan that has to be paid, as long as it
   lasts, and changes nothing else.
   */
  lemma {:induction false} ScansUseUpQuota(u: User, events: seq<Event>)
    requires OnlyScans(events)
    ensures AfterAll(u, events) == u.(scans := u.scans - Payable(u.scans, PricedScans(u, events)))
    decreases |events|
  {
    if events != [] {
      var v := After(u, events[0]);
      OneScan(u, events[0]);
      ScansUseUpQuota(v, events[1..]);
      SamePrices(u, v, events[1..]);
      hide After, Priced;
    }
  }

  lemma {:induction false} SamePrices(u: User, v: User, events: seq<Event>)
    requires v == u.(scans := v.scans)
    ensures PricedScans(v, events) == PricedScans(u, events)
    decreases |events|
  {
    if events != [] {
      SamePrices(u, v, events[1..]);
    }
  }

  /**
   After any run of scans the next one is refused exactly when there is no premium at its time
   and at least as many scans had to be paid as the quota held; with premium none is refused.
   */
  lemma NextScanIsAccepted(u: User, events: seq<Event>, cached: bool, at: Instant)
    requires OnlyScans(events)
    ensures Scanned(AfterAll(u, events), cached, at).Accepted? <==> PremiumAt(u, at) || PricedScans(u, events) < u.scans
  {
    ScansUseUpQuota(u, events);
    OneScan(AfterAll(u, events), Scan(cached, at));
    hide AfterAll, Scanned;
  }

  // ---------------------------------------------------------------- every run

  /** The proposal of the event applies to the row. */
  ghost predicate TakesEffect(u: User, e: Event) {
    e.ApplyRead? && Read(e.origin, e.snapshot, e.verifiedAt, e.stamp).Accepted?
    && Applies(u, Read(e.origin, e.snapshot, e.verifiedAt, e.stamp).value, e.excess)
  }

  ghost predicate DowngradeRecorded(u: User) {
    "limits_exceeded" in u.settings || "downgraded_at" in u.settings
  }

  /**
   What an event sets the quota to: a reset to 5, the loss of premium to 3, and the return to
   premium after a recorded downgrade to unlimited.
   */
  ghost function QuotaSet(u: User, e: Event): Option<int> {
    if e.ResetScans? then Some(5)
    else if !TakesEffect(u, e) then None
    else if u.status == "premium" && !e.snapshot.premium then Some(3)
    else if u.status != "premium" && e.snapshot.premium && DowngradeRecorded(u) then Some(-1)
    else None
  }

  ghost predicate Charged(u: User, e: Event) {
    Priced(u, e) && u.scans > 0
  }

  /** How many scans of the run are charged, each judged by the row as it then is. */
  ghost function Charges(u: User, events: seq<Event>): nat
    decreases |events|
  {
    if events == [] then 0
    else (if Charged(u, events[0]) then 1 else 0) + Charges(After(u, events[0]), events[1..])
  }

  lemma OneEvent(u: User, e: Event)
    ensures After(u, e).scans ==
      if QuotaSet(u, e).Some? then QuotaSet(u, e).value else if Charged(u, e) then u.scans - 1 else u.scans
  {
    hide WithRemoveAds, WithSnapshot, HasRemoveAds, SubscriptionOf, Products, IsFlag, Get;
    if e.ApplyRead? && TakesEffect(u, e) {
      EffectOnQuota(u, Read(e.origin, e.snapshot, e.verifiedAt, e.stamp).value, e.excess);
    }
  }

  /** Only a change of status touches the quota. */
  lemma EffectOnQuota(u: User, p: Proposal, excess: Excess)
    requires Applies(u, p, excess) && (p.outcome.Unchanged? ==> p.beforeStatus == StatusOf(p.snapshot))
    ensures AfterApply(u, p, excess).scans ==
      if u.status == "premium" && !p.snapshot.premium then 3
      else if u.status != "premium" && p.snapshot.premium && DowngradeRecorded(u) then -1
      else u.scans
  {
    WritingKeepsRecords(u, p);
    hide Written, HasRemoveAds, SubscriptionOf;
  }

  lemma WritingKeepsRecords(u: User, p: Proposal)
    ensures Written(u, p).scans == u.scans && (DowngradeRecorded(Written(u, p)) <==> DowngradeRecorded(u))
  {
    hide WithSnapshot, NonSubscriptions, ListAt, Strings, Without, Including;
  }

  /**
   The account of the quota over every run of scans, resets and applies old or new: it is what
   the last event that set it made it, or what it was at the start, less one for each scan
   charged since.
   */
  lemma {:induction false} QuotaAccount(u: User, events: seq<Event>) returns (n: nat)
    ensures n <= |events|
    ensures forall i {:trigger events[i]} :: n <= i < |events| ==> QuotaSet(AfterAll(u, events[..i]), events[i]).None?
    ensures var from := if n == 0 then Some(u.scans) else QuotaSet(AfterAll(u, events[..n - 1]), events[n - 1]);
      from.Some? && AfterAll(u, events).scans == from.value - Charges(AfterAll(u, events[..n]), events[n..])
    decreases |events|
  {
    if events == [] {
      n := 0;
    } else {
      var v, rest := After(u, events[0]), events[1..];
      OneEvent(u, events[0]);
      var m := QuotaAccount(v, rest);
      hide After, QuotaSet, Charged;
      forall i | 0 <= i <= |rest|
        ensures AfterAll(u, events[..i + 1]) == AfterAll(v, rest[..i])
      {
        assert events[..i + 1][1..] == rest[..i];
      }
      n := if m == 0 && QuotaSet(u, events[0]).None? then 0 else m + 1;
      assert AfterAll(u, events[..0]) == u && AfterAll(v, rest[..0]) == v;
      assert rest[..0] == [] && events[..0] == [] && rest[0..] == rest && events[0..] == events;
      assert events[m + 1..] == rest[m..];
      forall i {:trigger events[i]} | n <= i < |events|
        ensures QuotaSet(AfterAll(u, events[..i]), events[i]).None?
      {
        if i > 0 {
          assert rest[i - 1] == events[i];
        }
      }
    }
  }
}
