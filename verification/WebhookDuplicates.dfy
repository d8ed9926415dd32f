/** What becomes of an event that was handled before, over every run of the webhook protocol. */
module WebhookDuplicates {
  import opened Prelude
  import opened Evidence
  import opened Projection
  import opened WebhookProtocol
  import opened WebhookInvariant
  import opened WebhookSteps
  import opened WebhookTheorems

  /** The key of an event: its id, without one the store's transaction, without both the correlation id. */
  ghost predicate Identifies(key: Key, job: Job) {
    && job.Webhook?
    && (job.eventId.Some? ==> key == job.eventId.value)
    && (job.eventId.None? && job.storeId.Some? ==> key == job.storeId.value)
    && (job.eventId.None? && job.storeId.None? ==> key == job.correlationId)
  }

  /** The key has an audit other than an error. */
  ghost predicate Concluded(audits: map<Key, Audit>, key: Key) {
    key in audits && (audits[key].result == Success || audits[key].result == Skipped)
  }

  /** An older handler concluded this very event under the store's transaction. */
  ghost predicate ConcludedEarlier(audits: map<Key, Audit>, job: Job)
    requires job.Webhook?
  {
    && job.eventId.Some? && job.storeId.Some? && job.eventId != job.storeId
    && Concluded(audits, job.storeId.value) && audits[job.storeId.value].eventId == job.eventId
  }

  /** The worker has no participants and no committed update, and all that is left is to release and reply. */
  ghost predicate Dismissed(s: System, w: WorkerId) {
    && w in s.workers && s.workers[w].job.Webhook? && s.workers[w].audience == []
    && (s.workers[w].phase == Releasing(true) || s.workers[w].phase == Done(true) || s.workers[w].phase == Crashed)
    && forall i :: 0 <= i < |s.journal| ==> s.journal[i].worker != w
  }

  /** The journal grows only by the updates of a committing run. */
  lemma JournalGrowsByCommit(s: System, a: Action)
    requires Enabled(s, a)
    ensures if a.By? && a.step.Commit?
            then s.workers[a.w].phase.Committing?
                 && Next(s, a).journal == s.journal + Entries(a.w, s.workers[a.w].phase.writes)
            else Next(s, a).journal == s.journal
  {
    hide OnFault, OnAbort, Read, Apply, AfterWrites, AfterEffect, Existing, Audience, OwnAudit, LegacyAudit, Blocked, Entries;
  }

  lemma DismissedSteps(s: System, w: WorkerId, step: Step)
    requires Dismissed(s, w) && Ready(s, w, step)
    ensures step == Crash || step.Release?
    ensures var after := Stepped(s, w, step).workers[w].phase; after == Done(true) || after == Crashed
  {
    hide Blocked;
  }

  lemma DismissedKept(s: System, a: Action, w: WorkerId)
    requires Dismissed(s, w) && Enabled(s, a)
    ensures Dismissed(Next(s, a), w)
  {
    JournalGrowsByCommit(s, a);
    if a.By? {
      StepShape(s, a.w, a.step);
      if a.w == w {
        DismissedSteps(s, w, a.step);
      }
    }
    hide Ready, Stepped;
  }

  lemma {:induction false} DismissedForever(s: System, actions: seq<Action>, w: WorkerId)
    requires Dismissed(s, w) && Runs(s, actions)
    ensures Dismissed(Last(s, actions), w)
    decreases |actions|
  {
    if actions != [] {
      DismissedKept(s, actions[0], w);
      hide Dismissed, Next, Enabled;
      DismissedForever(Next(s, actions[0]), actions[1..], w);
    }
  }

  /** A worker at its audit check has no participants yet and has committed nothing. */
  lemma NothingDoneBeforeCheck(s: System, w: WorkerId)
    requires Invariant(s) && w in s.workers && (s.workers[w].phase.Leased? || s.workers[w].phase.LegacyCheck?)
    ensures s.workers[w].audience == [] && forall i :: 0 <= i < |s.journal| ==> s.journal[i].worker != w
  {
    assert WorkerOk(s.workers[w], s.users, s.audits, s.clock);
    forall i | 0 <= i < |s.journal|
      ensures s.journal[i].worker != w
    {
      assert EntryOk(s, s.journal[i]);
    }
  }

  /** What the two lookups decide in one step each. */
  lemma Lookups(s: System, w: WorkerId, key: Key)
    requires w in s.workers && Identifies(key, s.workers[w].job)
    ensures Ready(s, w, CheckOwn) ==> Stepped(s, w, CheckOwn).clock == s.clock
    ensures Ready(s, w, CheckLegacy) ==> Stepped(s, w, CheckLegacy).clock == s.clock
    ensures Ready(s, w, CheckOwn) ==>
      Stepped(s, w, CheckOwn).workers[w].phase ==
        if Concluded(s.audits, key) then Releasing(true)
        else if key !in s.audits && s.workers[w].job.eventId.Some? && s.workers[w].job.storeId.Some?
                && s.workers[w].job.eventId != s.workers[w].job.storeId then LegacyCheck
        else Cleared
    ensures Ready(s, w, CheckLegacy) ==>
      Stepped(s, w, CheckLegacy).workers[w].phase ==
        if ConcludedEarlier(s.audits, s.workers[w].job) then Releasing(true) else Cleared
  {
    hide Blocked;
  }

  /**
   A duplicate changes nothing, over every run: if a worker looks up its event when that has a
   success or skipped audit, under its own key or from an older handler, then in every
   continuation the worker has no participants and no committed update; it answers success,
   or dies first.
   */
  lemma DuplicateIsDismissed(s: System, actions: seq<Action>, w: WorkerId, key: Key, step: Step, later: seq<Action>)
    requires Initial(s) && Runs(s, actions) && w in Last(s, actions).workers && Ready(Last(s, actions), w, step)
    requires Identifies(key, Last(s, actions).workers[w].job)
    requires || (step == CheckOwn && Concluded(Last(s, actions).audits, key))
             || (step == CheckLegacy && ConcludedEarlier(Last(s, actions).audits, Last(s, actions).workers[w].job))
    requires Runs(Next(Last(s, actions), By(w, step)), later)
    ensures Dismissed(Last(Next(Last(s, actions), By(w, step)), later), w)
  {
    var t := Last(s, actions);
    InitialInvariant(s);
    RunKeeps(s, actions);
    NothingDoneBeforeCheck(t, w);
    Lookups(t, w, key);
    StepShape(t, w, step);
    JournalGrowsByCommit(t, By(w, step));
    hide Invariant, Runs, Last, Ready, Stepped, Concluded, ConcludedEarlier, Identifies;
    DismissedForever(Next(t, By(w, step)), later, w);
  }

  /**
   What a worker with the lease finds by its own lookups: it goes on to read the participants if
   and only if its event is not concluded under its own key and, when that key has no audit at
   all, not concluded earlier either.  So an event with an error is tried again.
   */
  lemma CheckDecides(s: System, actions: seq<Action>, w: WorkerId, key: Key) returns (longer: seq<Action>)
    requires Runs(s, actions) && w in Last(s, actions).workers
    requires Ready(Last(s, actions), w, CheckOwn) && Identifies(key, Last(s, actions).workers[w].job)
    ensures longer == actions + [By(w, CheckOwn)] || longer == actions + [By(w, CheckOwn), By(w, CheckLegacy)]
    ensures Runs(s, longer) && Shape(Last(s, actions), Last(s, longer), w) && SameTables(Last(s, actions), Last(s, longer))
    ensures Last(s, longer).leases == Last(s, actions).leases && Last(s, longer).clock == Last(s, actions).clock
    ensures var t, after := Last(s, actions), Last(s, longer).workers[w];
      && after.audience == t.workers[w].audience
      && (after.phase == Releasing(true) || after.phase == Cleared)
      && (after.phase == Cleared <==>
            !Concluded(t.audits, key) && (key in t.audits || !ConcludedEarlier(t.audits, after.job)))
  {
    var t := Last(s, actions);
    Lookups(t, w, key);
    StepShape(t, w, CheckOwn);
    LeaseFrame(t, By(w, CheckOwn));
    hide Runs, Last, Stepped, Concluded;
    longer := RunExtends(s, actions, By(w, CheckOwn));
    var own := Last(s, longer);
    if own.workers[w].phase == LegacyCheck {
      Lookups(own, w, key);
      StepShape(own, w, CheckLegacy);
      LeaseFrame(own, By(w, CheckLegacy));
      longer := RunExtends(s, longer, By(w, CheckLegacy));
      assert actions + [By(w, CheckOwn)] + [By(w, CheckLegacy)] == actions + [By(w, CheckOwn), By(w, CheckLegacy)];
    }
  }
}
