/** Safety of the webhook protocol over every run: audits, leases, row updates and locks. */
module WebhookTheorems {
  import opened Prelude
  import opened Evidence
  import opened Projection
  import opened WebhookProtocol
  import opened WebhookInvariant
  import opened WebhookSteps

  // ------------------------------------------------------------- shape of the steps

  /** What every step does to the workers: only the acting one changes, it keeps its job and has arrived. */
  ghost predicate Shape(s: System, t: System, w: WorkerId) {
    && w in s.workers && w in t.workers
    && t.workers == s.workers[w := t.workers[w]]
    && t.workers[w].job == s.workers[w].job
    && !t.workers[w].phase.Arrived?
  }

  ghost predicate SameTables(s: System, t: System) {
    t.users == s.users && t.audits == s.audits
  }

  lemma LockingShape(s: System, w: WorkerId, claim: Claim, excess: Excess)
    requires w in s.workers && s.workers[w].phase.Applying? && s.workers[w].phase.pending != []
    ensures var t := Locking(s, w, claim, excess);
      t.leases == s.leases && Shape(s, t, w) && SameTables(s, t) && t.workers[w].audience == s.workers[w].audience
  {
    FaultIsQuiet(s.workers[w]);
    hide OnFault, OnAbort, Apply;
  }

  lemma CommittedShape(s: System, w: WorkerId, reported: bool)
    requires w in s.workers && s.workers[w].phase.Committing?
    ensures var t := Committed(s, w, reported);
      t.leases == s.leases && Shape(s, t, w) && t.workers[w].audience == s.workers[w].audience
  {
    FaultIsQuiet(s.workers[w]);
    hide OnFault, AfterWrites, AfterEffect;
  }

  lemma ArrivingShape(s: System, w: WorkerId, lost: bool)
    requires w in s.workers && s.workers[w].job.Webhook?
    ensures var t := Arriving(s, w, lost);
      Shape(s, t, w) && SameTables(s, t) && t.workers[w].audience == s.workers[w].audience
  {
  }

  predicate Reads(step: Step) {
    step.CheckOwn? || step.CheckLegacy? || step.Start? || step.Baseline? || step.Answer?
  }

  lemma ReadingShape(s: System, w: WorkerId, step: Step)
    requires w in s.workers && Ready(s, w, step) && Reads(step)
    ensures Shape(s, Stepped(s, w, step), w) && SameTables(s, Stepped(s, w, step))
    ensures var after := Stepped(s, w, step).workers[w];
      || after.audience == s.workers[w].audience
      || (step.Start? && after.audience == Audience(s.users, after.job))
  {
    FaultIsQuiet(s.workers[w]);
    hide OnFault, OnAbort, Read, Audience;
  }

  lemma WritingShape(s: System, w: WorkerId, step: Step)
    requires w in s.workers && Ready(s, w, step)
    requires !Reads(step) && !step.Arrive? && !step.LockAndApply? && !step.Commit?
    ensures var t := Stepped(s, w, step);
      Shape(s, t, w) && SameTables(s, t) && t.workers[w].audience == s.workers[w].audience
  {
    FaultIsQuiet(s.workers[w]);
    hide OnFault, OnAbort, Blocked;
  }

  lemma ReadyIsLive(s: System, w: WorkerId, step: Step)
    requires w in s.workers && Ready(s, w, step)
    ensures !Ended(s.workers[w].phase)
    ensures match step
      case Arrive(_) => s.workers[w].job.Webhook?
      case LockAndApply(_) => s.workers[w].phase.Applying? && s.workers[w].phase.pending != []
      case Commit(_) => s.workers[w].phase.Committing?
      case _ => true
  {
    hide Blocked;
  }

  /**
   The shape of every step: only a commit writes the tables, and the audience changes only at
   the start, to the live participants.
   */
  lemma StepShape(s: System, w: WorkerId, step: Step)
    requires w in s.workers && Ready(s, w, step)
    ensures Shape(s, Stepped(s, w, step), w) && !Ended(s.workers[w].phase)
    ensures step.Commit? || SameTables(s, Stepped(s, w, step))
    ensures var after := Stepped(s, w, step).workers[w];
      || after.audience == s.workers[w].audience
      || (step.Start? && after.audience == Audience(s.users, after.job))
  {
    ReadyIsLive(s, w, step);
    hide Ready, Locking, Committed, Arriving, Audience, Shape, SameTables;
    match step
    case Arrive(lost) => ArrivingShape(s, w, lost);
    case LockAndApply(excess) => LockingShape(s, w, s.workers[w].phase.pending[0], excess);
    case Commit(reported) => CommittedShape(s, w, reported);
    case _ =>
      if Reads(step) {
        ReadingShape(s, w, step);
      } else {
        WritingShape(s, w, step);
      }
  }

  // --------------------------------------------------------------------- audits

  /** The audit table changes only by a commit, at the key of the committing run. */
  lemma AuditsChangeByCommit(s: System, a: Action)
    requires Enabled(s, a) && s.audits != Next(s, a).audits
    ensures a.By? && a.step.Commit?
    ensures s.workers[a.w].job.Webhook? && s.workers[a.w].phase.effect.Put?
    ensures Next(s, a).audits == s.audits[KeyOf(s.workers[a.w].job) := s.workers[a.w].phase.effect.audit]
  {
    hide Ready, Stepped;
    if a.By? && !a.step.Commit? {
      StepShape(s, a.w, a.step);
    } else if a.By? {
      CommitWritesItsKey(s, a.w, a.step.reported);
    }
  }

  lemma CommitWritesItsKey(s: System, w: WorkerId, reported: bool)
    requires w in s.workers && Ready(s, w, Commit(reported))
    ensures var worker, t := s.workers[w], Stepped(s, w, Commit(reported));
      && worker.phase.Committing?
      && if worker.job.Webhook? && worker.phase.effect.Put?
         then t.audits == s.audits[KeyOf(worker.job) := worker.phase.effect.audit]
         else t.audits == s.audits
  {
    hide OnFault, AfterWrites;
  }

  /** No action changes a terminal audit row or removes a row. */
  lemma TerminalStays(s: System, a: Action)
    requires Invariant(s) && Enabled(s, a)
    ensures AuditsEvolve(s.audits, Next(s, a).audits)
  {
    if s.audits != Next(s, a).audits {
      AuditsChangeByCommit(s, a);
      assert WorkerOk(s.workers[a.w], s.users, s.audits, s.clock);
    }
    hide Invariant, Next;
  }

  lemma {:induction false} TerminalForever(s: System, actions: seq<Action>)
    requires Invariant(s) && Runs(s, actions)
    ensures AuditsEvolve(s.audits, Last(s, actions).audits)
    decreases |actions|
  {
    if actions != [] {
      TerminalStays(s, actions[0]);
      ActionKeeps(s, actions[0]);
      TerminalForever(Next(s, actions[0]), actions[1..]);
    }
  }

  /**
   Under any interleaving, a webhook that answered with success has a committed success or
   skipped audit for its event, and keeps it in every continuation.
   */
  lemma SuccessIsAudited(s: System, actions: seq<Action>, later: seq<Action>, w: WorkerId)
    requires Initial(s) && Runs(s, actions)
    requires w in Last(s, actions).workers && Last(s, actions).workers[w].job.Webhook?
    requires Last(s, actions).workers[w].phase == Done(true)
    requires Runs(Last(s, actions), later)
    ensures Acknowledged(Last(s, actions).audits, Last(s, actions).workers[w].job)
    ensures Acknowledged(Last(Last(s, actions), later).audits, Last(s, actions).workers[w].job)
  {
    InitialInvariant(s);
    RunKeeps(s, actions);
    var t := Last(s, actions);
    assert WorkerOk(t.workers[w], t.users, t.audits, t.clock);
    TerminalForever(t, later);
  }

  /** An insert that commits meets no row under its key, and an update one that is not terminal. */
  lemma CommitFindsItsKey(s: System, w: WorkerId, reported: bool)
    requires Invariant(s) && w in s.workers && Ready(s, w, Commit(reported))
    requires s.workers[w].phase.effect.Put?
    ensures var key := KeyOf(s.workers[w].job);
      && s.workers[w].job.Webhook?
      && (s.workers[w].phase.effect.insert <==> key !in s.audits)
      && !TerminalAt(s.audits, key)
      && Stepped(s, w, Commit(reported)).audits == s.audits[key := s.workers[w].phase.effect.audit]
  {
    assert WorkerOk(s.workers[w], s.users, s.audits, s.clock);
  }

  // --------------------------------------------------------------------- leases

  /** Only arriving, releasing and expiring touch the leases. */
  lemma LeaseFrame(s: System, a: Action)
    requires Enabled(s, a) && !a.Expire?
    requires a.By? ==> !a.step.Arrive? && !a.step.Release?
    ensures Next(s, a).leases == s.leases
  {
    hide OnFault, OnAbort, Read, Locking, Committed, Existing, Audience, OwnAudit, LegacyAudit, Blocked;
    if a.By? && a.step.LockAndApply? {
      LockingShape(s, a.w, s.workers[a.w].phase.pending[0], a.step.excess);
    } else if a.By? && a.step.Commit? {
      CommittedShape(s, a.w, a.step.reported);
    }
  }

  /** Arriving adds at most the one lease it asks for, and replaces none. */
  lemma ArriveLeases(s: System, w: WorkerId, lost: bool)
    requires w in s.workers && Ready(s, w, Arrive(lost))
    ensures s.workers[w].phase.Arrived? && s.workers[w].job.Webhook?
    ensures var t, key := Stepped(s, w, Arrive(lost)), KeyOf(s.workers[w].job);
      && t.leases == (if key in s.leases then s.leases else s.leases[key := w])
      && t.workers[w].phase == (if key in s.leases || lost then Done(false) else Leased)
  {
  }

  /** Releasing deletes at most the worker's own lease. */
  lemma ReleaseLeases(s: System, w: WorkerId, reached: bool)
    requires w in s.workers && Ready(s, w, Release(reached))
    ensures var t, key := Stepped(s, w, Release(reached)), KeyOf(s.workers[w].job);
      && t.leases == (if reached && key in s.leases && s.leases[key] == w then s.leases - {key} else s.leases)
      && t.workers[w].phase.Done? && Working(s, w, key)
  {
  }

  /** A lease ends by its own holder's release or by expiry, never by another worker's release. */
  lemma LeaseEndsByOwnerOrExpiry(s: System, a: Action, key: Key)
    requires Enabled(s, a) && key in s.leases
    ensures (key in Next(s, a).leases && Next(s, a).leases[key] == s.leases[key])
            || a == Expire(key) || a == By(s.leases[key], Release(true))
  {
    hide Ready, Stepped;
    if a.By? && a.step.Arrive? {
      ArriveLeases(s, a.w, a.step.lost);
    } else if a.By? && a.step.Release? {
      ReleaseLeases(s, a.w, a.step.reached);
    } else if !a.Expire? {
      LeaseFrame(s, a);
    }
  }

  /** A webhook that got past its arrival and has not ended. */
  predicate UnderWay(worker: Worker, key: Key) {
    worker.job.Webhook? && KeyOf(worker.job) == key && !worker.phase.Arrived? && !Ended(worker.phase)
  }

  ghost predicate Working(s: System, w: WorkerId, key: Key) {
    w in s.workers && UnderWay(s.workers[w], key)
  }

  /** Whoever works on the key holds its lease. */
  ghost predicate LeaseHeld(s: System, key: Key) {
    forall w :: Working(s, w, key) ==> key in s.leases && s.leases[key] == w
  }

  /** No step but an arrival starts work on a key: what leaves Arrived otherwise ends. */
  lemma WorkStartsByArrival(s: System, w: WorkerId, step: Step, key: Key)
    requires w in s.workers && Ready(s, w, step) && !step.Arrive? && Working(Stepped(s, w, step), w, key)
    ensures Working(s, w, key)
  {
    StepShape(s, w, step);
    if s.workers[w].phase.Arrived? {
      ArrivedEnds(s, w, step);
    }
    hide Ready, Stepped;
  }

  lemma ArrivedEnds(s: System, w: WorkerId, step: Step)
    requires w in s.workers && Ready(s, w, step) && !step.Arrive?
    requires s.workers[w].phase.Arrived? && s.workers[w].job.Webhook?
    ensures Ended(Stepped(s, w, step).workers[w].phase)
  {
  }

  lemma LeaseHeldKept(s: System, a: Action, key: Key)
    requires LeaseHeld(s, key) && Enabled(s, a) && a != Expire(key)
    ensures LeaseHeld(Next(s, a), key)
  {
    hide Ready, Stepped;
    forall v | Working(Next(s, a), v, key)
      ensures key in Next(s, a).leases && Next(s, a).leases[key] == v
    {
      if a.By? {
        if a.step.Arrive? {
          ArriveLeases(s, a.w, a.step.lost);
        } else if a.step.Release? {
          ReleaseLeases(s, a.w, a.step.reached);
        } else {
          LeaseFrame(s, a);
        }
        StepShape(s, a.w, a.step);
        if a.w == v && !a.step.Arrive? {
          WorkStartsByArrival(s, v, a.step, key);
        }
        assert a.w != v ==> Working(s, v, key);
      } else {
        assert Working(s, v, key);
      }
    }
  }

  lemma {:induction false} LeaseHeldOverRuns(s: System, actions: seq<Action>, key: Key)
    requires LeaseHeld(s, key) && Runs(s, actions) && Expire(key) !in actions
    ensures LeaseHeld(Last(s, actions), key)
    decreases |actions|
  {
    if actions != [] {
      assert actions[0] in actions;
      LeaseHeldKept(s, actions[0], key);
      hide Next, Enabled, LeaseHeld;
      LeaseHeldOverRuns(Next(s, actions[0]), actions[1..], key);
    }
  }

  /** While the lease of an event does not expire, at most one worker is under way on it. */
  lemma LeaseExcludesWithoutExpiry(s: System, actions: seq<Action>, key: Key, v: WorkerId, w: WorkerId)
    requires Initial(s) && Runs(s, actions) && Expire(key) !in actions
    requires Working(Last(s, actions), v, key) && Working(Last(s, actions), w, key)
    ensures v == w && key in Last(s, actions).leases && Last(s, actions).leases[key] == v
  {
    LeaseHeldOverRuns(s, actions, key);
  }

  /** One more action at the end of a run. */
  lemma {:induction false} RunExtends(s: System, actions: seq<Action>, a: Action) returns (longer: seq<Action>)
    requires Runs(s, actions) && Enabled(Last(s, actions), a)
    ensures longer == actions + [a]
    ensures Runs(s, longer) && Last(s, longer) == Next(Last(s, actions), a)
    decreases |actions|
  {
    hide Next, Enabled;
    longer := actions + [a];
    if actions == [] {
      assert longer[1..] == [];
    } else {
      var rest := RunExtends(Next(s, actions[0]), actions[1..], a);
      assert longer[1..] == rest;
    }
  }

  /** Checking the audit under a lease: the worker gets past the check when the event has no audit. */
  lemma PastTheCheck(s: System, actions: seq<Action>, w: WorkerId, job: Job) returns (longer: seq<Action>)
    requires Runs(s, actions)
    requires var t := Last(s, actions);
      && w !in t.workers && job.Webhook? && Ascending(job.named) && LegacyKey(job).None?
      && KeyOf(job) !in t.audits && KeyOf(job) !in t.leases
    ensures Runs(s, longer)
    ensures var t, t' := Last(s, actions), Last(s, longer);
      && t'.workers == t.workers[w := Worker(job, Cleared, [], false, false)]
      && t'.leases == t.leases[KeyOf(job) := w]
      && t'.audits == t.audits
  {
    hide Runs, Last;
    longer := RunExtends(s, actions, Spawn(w, job));
    longer := RunExtends(s, longer, By(w, Arrive(false)));
    longer := RunExtends(s, longer, By(w, CheckOwn));
  }

  /**
   When the lease expires early, two workers are past the audit check of one event at once.
   What is proved of commits rests on row locks, baselines and the unique key instead.
   */
  lemma LeaseAloneDoesNotExclude(s: System, job: Job) returns (actions: seq<Action>)
    requires Initial(s) && job.Webhook? && Ascending(job.named) && LegacyKey(job).None? && KeyOf(job) !in s.audits
    ensures Runs(s, actions)
    ensures var t := Last(s, actions);
      0 in t.workers && 1 in t.workers && t.workers[0] == t.workers[1] == Worker(job, Cleared, [], false, false)
  {
    assert Runs(s, []) && Last(s, []) == s;
    actions := PastTheCheck(s, [], 0, job);
    hide Runs, Last;
    actions := RunExtends(s, actions, Expire(KeyOf(job)));
    actions := PastTheCheck(s, actions, 1, job);
  }

  /** In every state of the machine at most one worker is under way on the key. */
  ghost predicate OneAtATime(s: System, key: Key) {
    forall v, w :: Working(s, v, key) && Working(s, w, key) ==> v == w
  }

  /** A new worker of the key gets under way when there is no lease. */
  lemma Joins(s: System, actions: seq<Action>, w: WorkerId, key: Key) returns (longer: seq<Action>)
    requires Runs(s, actions) && w !in Last(s, actions).workers && key !in Last(s, actions).leases
    ensures Runs(s, longer) && (Expire(key) in longer ==> Expire(key) in actions)
    ensures var t, t' := Last(s, actions), Last(s, longer);
      && Working(t', w, key) && key in t'.leases
      && (forall v :: v in t'.workers <==> v in t.workers || v == w)
      && forall v :: v in t.workers ==> t'.workers[v] == t.workers[v]
  {
    hide Runs, Last;
    var job := Webhook(Some(key), None, "", false, []);
    longer := RunExtends(s, actions, Spawn(w, job));
    longer := RunExtends(s, longer, By(w, Arrive(false)));
  }

  /**
   The lease excludes a second worker if and only if it does not expire while it is needed:
   from every initial state, runs without an expiry of the key never have two workers under
   way on it, and with expiries allowed some run has.
   */
  lemma LeaseExcludesIffItDoesNotExpire(s: System, key: Key, expires: bool)
    requires Initial(s)
    ensures (forall actions :: Runs(s, actions) && (expires || Expire(key) !in actions) ==>
               OneAtATime(Last(s, actions), key))
       <==> !expires
  {
    if expires {
      assert Runs(s, []) && Last(s, []) == s;
      var actions := Joins(s, [], 0, key);
      hide Runs, Last;
      var before := Last(s, actions);
      assert Working(before, 0, key);
      actions := RunExtends(s, actions, Expire(key));
      actions := Joins(s, actions, 1, key);
      assert Working(Last(s, actions), 0, key) && Working(Last(s, actions), 1, key);
    } else {
      forall actions | Runs(s, actions) && Expire(key) !in actions
        ensures OneAtATime(Last(s, actions), key)
      {
        LeaseHeldOverRuns(s, actions, key);
      }
    }
  }

  /** The worker has ended, or works alone under a standing lease of the key. */
  ghost predicate Alone(s: System, w: WorkerId, key: Key) {
    && w in s.workers
    && (Ended(s.workers[w].phase)
        || (Working(s, w, key) && key in s.leases && forall v :: Working(s, v, key) ==> v == w))
  }

  lemma AloneKept(s: System, a: Action, w: WorkerId, key: Key)
    requires Alone(s, w, key) && Enabled(s, a) && a != Expire(key)
    ensures Alone(Next(s, a), w, key)
  {
    hide Ready, Stepped;
    var t := Next(s, a);
    forall v | Working(t, v, key)
      ensures Working(s, v, key) || Ended(s.workers[w].phase)
    {
      if a.By? && a.w == v {
        StepShape(s, v, a.step);
        if a.step.Arrive? {
          ArriveLeases(s, v, a.step.lost);
        } else {
          WorkStartsByArrival(s, v, a.step, key);
        }
      } else if a.By? {
        StepShape(s, a.w, a.step);
      }
    }
    if a.By? {
      StepShape(s, a.w, a.step);
      if a.step.Arrive? {
        ArriveLeases(s, a.w, a.step.lost);
      } else if a.step.Release? {
        ReleaseLeases(s, a.w, a.step.reached);
      } else {
        LeaseFrame(s, a);
      }
    }
  }

  lemma {:induction false} AloneOverRuns(s: System, actions: seq<Action>, w: WorkerId, key: Key)
    requires Alone(s, w, key) && Runs(s, actions) && Expire(key) !in actions
    ensures Alone(Last(s, actions), w, key)
    decreases |actions|
  {
    if actions != [] {
      assert actions[0] in actions;
      AloneKept(s, actions[0], w, key);
      hide Next, Enabled, Alone;
      AloneOverRuns(Next(s, actions[0]), actions[1..], w, key);
    }
  }

  /** No continuation without an expiry brings a second worker while this one is under way. */
  ghost predicate Protected(s: System, w: WorkerId, key: Key) {
    forall actions, v ::
      (Runs(s, actions) && Expire(key) !in actions
       && Working(Last(s, actions), w, key) && Working(Last(s, actions), v, key)) ==> v == w
  }

  lemma {:induction false} FreshWorker(workers: set<WorkerId>) returns (w: WorkerId)
    ensures forall v :: v in workers ==> v < w
    decreases |workers|
  {
    if workers == {} {
      w := 0;
    } else {
      var v :| v in workers;
      w := FreshWorker(workers - {v});
      assert forall u :: u in workers ==> u == v || u in workers - {v};
      if w <= v {
        w := v + 1;
      }
    }
  }

  /**
   Exactly when a worker is alone on its event until its lease expires: the lease stands and
   nobody else is under way already.  It need not be the worker's own lease.
   */
  lemma ProtectedIffLeaseStands(s: System, w: WorkerId, key: Key)
    requires Working(s, w, key)
    ensures Protected(s, w, key) <==> key in s.leases && forall v :: Working(s, v, key) ==> v == w
  {
    assert Runs(s, []) && Last(s, []) == s;
    if key in s.leases && forall v :: Working(s, v, key) ==> v == w {
      forall actions, v | Runs(s, actions) && Expire(key) !in actions
        && Working(Last(s, actions), w, key) && Working(Last(s, actions), v, key)
        ensures v == w
      {
        AloneOverRuns(s, actions, w, key);
      }
    } else if key !in s.leases {
      var v := FreshWorker(s.workers.Keys);
      var actions := Joins(s, [], v, key);
      hide Runs, Last;
      assert Working(Last(s, actions), w, key) && Working(Last(s, actions), v, key);
    }
  }

  // ---------------------------------------------------------------- row updates

  /** Of all proposals read from one verified baseline of a user, at most one is ever committed. */
  lemma NoLostUpdate(s: System, actions: seq<Action>, i: nat, j: nat)
    requires Initial(s) && Runs(s, actions)
    requires i < |Last(s, actions).journal| && j < |Last(s, actions).journal|
    requires var journal := Last(s, actions).journal;
      && journal[i].write.user == journal[j].write.user
      && journal[i].write.proposal.beforeVerifiedAt == journal[j].write.proposal.beforeVerifiedAt
    ensures i == j
  {
    InitialInvariant(s);
    RunKeeps(s, actions);
    hide WorkersOk, Exclusive, UsersOk, AppliesTo, Runs, Last;
  }

  /** A committed update finds status, expiry, verification time, settings and access as read. */
  lemma CommitFindsItsBaseline(s: System, w: WorkerId, reported: bool, i: nat)
    requires Invariant(s) && w in s.workers && Ready(s, w, Commit(reported))
    requires i < |s.workers[w].phase.writes|
    ensures var write := s.workers[w].phase.writes[i];
      && write.user in s.users
      && write.user in Stepped(s, w, Commit(reported)).users
      && Current(s.users[write.user], write.proposal)
      && Apply(s.users[write.user], write.proposal, write.excess)
           == Accepted(Applied(Stepped(s, w, Commit(reported)).users[write.user]))
  {
    CommitterFacts(s.workers[w], s.users, s.audits, s.clock);
    AfterWritesMeaning(s.users, s.workers[w].phase.writes);
    AppliedBaseline(s.workers[w].phase.writes[i]);
    hide Invariant, AfterWrites, AfterEffect, Apply, Current, OnFault;
  }

  /** A user row changes only by another writer or by a commit. */
  lemma RowsChangeByCommit(s: System, a: Action, u: UserId)
    requires Enabled(s, a)
    requires (u in s.users) != (u in Next(s, a).users) || (u in s.users && s.users[u] != Next(s, a).users[u])
    ensures (a.Outside? && a.user == u) || (a.By? && a.step.Commit?)
  {
    hide Ready, Stepped;
    if a.By? {
      StepShape(s, a.w, a.step);
    }
  }

  /** The commit from s to t applies the write's own proposal, read and still current, to the row. */
  ghost predicate Commits(s: System, t: System, write: Write) {
    && write.user in s.users && write.user in t.users
    && FreshProposal(write.proposal, s.clock)
    && Current(s.users[write.user], write.proposal)
    && Apply(s.users[write.user], write.proposal, write.excess) == Accepted(Applied(write.after))
    && t.users[write.user] == write.after
  }

  /** Every buffered write of a committing run is committed. */
  lemma CommitsEveryWrite(s: System, w: WorkerId, reported: bool, i: nat)
    requires Invariant(s) && w in s.workers && Ready(s, w, Commit(reported))
    requires i < |s.workers[w].phase.writes|
    ensures Commits(s, Stepped(s, w, Commit(reported)), s.workers[w].phase.writes[i])
  {
    var write := s.workers[w].phase.writes[i];
    CommitterFacts(s.workers[w], s.users, s.audits, s.clock);
    AfterWritesMeaning(s.users, s.workers[w].phase.writes);
    AppliedBaseline(write);
    assert WriteReady(write, s.users, s.clock);
    hide Invariant, AfterWrites, AfterEffect, Apply, Current, OnFault, FreshProposal;
  }

  /**
   An audit turns to success only in a commit that writes exactly the run's participants, at
   least one and all of them named by the event, each by its own proposal.
   */
  lemma SuccessAppliesEveryParticipant(s: System, a: Action, key: Key)
    requires Invariant(s) && Enabled(s, a)
    requires key in Next(s, a).audits && Next(s, a).audits[key].result == Success
    requires !(key in s.audits && s.audits[key].result == Success)
    ensures a.By? && a.step.Commit? && s.workers[a.w].job.Webhook? && KeyOf(s.workers[a.w].job) == key
    ensures var worker := s.workers[a.w];
      && worker.audience != [] && WriteUsers(worker.phase.writes) == worker.audience
      && worker.job.mutating && (forall u :: u in worker.audience ==> u in worker.job.named)
      && forall i :: 0 <= i < |worker.phase.writes| ==> Commits(s, Next(s, a), worker.phase.writes[i])
  {
    AuditsChangeByCommit(s, a);
    assert WorkerOk(s.workers[a.w], s.users, s.audits, s.clock);
    assert !s.workers[a.w].phase.failing;
    hide Invariant, WorkerOk, Stepped, Commits;
    forall i | 0 <= i < |s.workers[a.w].phase.writes|
      ensures Commits(s, Next(s, a), s.workers[a.w].phase.writes[i])
    {
      CommitsEveryWrite(s, a.w, a.step.reported, i);
    }
  }

  /** A run without its last action. */
  lemma {:induction false} RunSplits(s: System, actions: seq<Action>)
    requires Runs(s, actions) && actions != []
    ensures var last := |actions| - 1;
      && Runs(s, actions[..last]) && Enabled(Last(s, actions[..last]), actions[last])
      && Last(s, actions) == Next(Last(s, actions[..last]), actions[last])
    decreases |actions|
  {
    hide Next, Enabled;
    var last := |actions| - 1;
    if last == 0 {
      assert actions[1..] == [];
    } else {
      RunSplits(Next(s, actions[0]), actions[1..]);
      assert actions[1..][..last - 1] == actions[..last][1..];
    }
  }

  /** A worker's audience is set when it starts, to the participants with a live row then. */
  lemma AudienceSetAtStart(s: System, a: Action, w: WorkerId)
    requires Enabled(s, a) && w in Next(s, a).workers
    ensures var after := Next(s, a).workers[w];
      if w in s.workers then
        && after.job == s.workers[w].job
        && (after.audience == s.workers[w].audience
            || (a == By(w, Start) && after.audience == Audience(s.users, after.job)))
      else after.audience == []
  {
    hide Ready, Stepped, Audience;
    if a.By? {
      StepShape(s, a.w, a.step);
    }
  }

  lemma {:induction false} AudienceFromStart(s: System, actions: seq<Action>, w: WorkerId) returns (n: nat)
    requires Initial(s) && Runs(s, actions)
    requires w in Last(s, actions).workers && Last(s, actions).workers[w].audience != []
    ensures n < |actions| && actions[n] == By(w, Start) && Runs(s, actions[..n])
    ensures var worker := Last(s, actions).workers[w];
      && w in Last(s, actions[..n]).workers && Last(s, actions[..n]).workers[w].job == worker.job
      && worker.audience == Audience(Last(s, actions[..n]).users, worker.job)
    decreases |actions|
  {
    assert actions != [];
    var last := |actions| - 1;
    RunSplits(s, actions);
    hide Runs, Last, Next, Enabled, Audience;
    var before := Last(s, actions[..last]);
    AudienceSetAtStart(before, actions[last], w);
    if Last(s, actions).workers[w].audience == before.workers[w].audience {
      n := AudienceFromStart(s, actions[..last], w);
      assert actions[..last][..n] == actions[..n];
    } else {
      n := last;
    }
  }

  /**
   All or nothing, over every run: an audit turns to success only in the commit that applies a
   snapshot to every user whom the event named and who had a live row when the run started,
   and to nobody else; there is at least one.
   */
  lemma SuccessAppliesEveryNamedUser(s: System, actions: seq<Action>, a: Action, key: Key) returns (n: nat)
    requires Initial(s) && Runs(s, actions) && Enabled(Last(s, actions), a)
    requires key in Next(Last(s, actions), a).audits && Next(Last(s, actions), a).audits[key].result == Success
    requires !(key in Last(s, actions).audits && Last(s, actions).audits[key].result == Success)
    ensures a.By? && a.step.Commit? && a.w in Last(s, actions).workers
    ensures n < |actions| && actions[n] == By(a.w, Start) && Runs(s, actions[..n])
    ensures var worker, started := Last(s, actions).workers[a.w], Last(s, actions[..n]).users;
      && worker.job.Webhook? && KeyOf(worker.job) == key && worker.job.mutating && worker.phase.writes != []
      && WriteUsers(worker.phase.writes) == worker.audience
      && (forall u :: u in worker.audience <==> u in worker.job.named && u in started && !started[u].deleted)
      && forall i :: 0 <= i < |worker.phase.writes| ==>
           Commits(Last(s, actions), Next(Last(s, actions), a), worker.phase.writes[i])
  {
    InitialInvariant(s);
    RunKeeps(s, actions);
    var t := Last(s, actions);
    SuccessAppliesEveryParticipant(t, a, key);
    n := AudienceFromStart(s, actions, a.w);
    var worker := t.workers[a.w];
    assert Ascending(worker.job.named) by {
      assert WorkerOk(worker, t.users, t.audits, t.clock);
    }
    ExistingAscends(Last(s, actions[..n]).users, worker.job.named);
    hide Invariant, Runs, Last, Next, Enabled, Commits, Existing;
    assert |WriteUsers(worker.phase.writes)| == |worker.phase.writes|;
  }

  /** A webhook's row updates become visible only together with a terminal audit of its event. */
  lemma UpdatesComeWithTheirAudit(s: System, w: WorkerId, reported: bool)
    requires Invariant(s) && w in s.workers && Ready(s, w, Commit(reported))
    requires s.workers[w].job.Webhook? && s.workers[w].phase.writes != []
    ensures TerminalAt(Stepped(s, w, Commit(reported)).audits, KeyOf(s.workers[w].job))
  {
    CommitterFacts(s.workers[w], s.users, s.audits, s.clock);
    assert WorkerOk(s.workers[w], s.users, s.audits, s.clock);
    hide Invariant, AfterWrites, OnFault, AppliesTo;
  }

  /** A run that met a stale baseline or an audit collision never commits a row update. */
  lemma CollisionCommitsNothing(s: System, actions: seq<Action>, w: WorkerId, i: nat)
    requires Initial(s) && Runs(s, actions)
    requires w in Last(s, actions).workers && Last(s, actions).workers[w].collided
    requires i < |Last(s, actions).journal|
    ensures Last(s, actions).journal[i].worker != w
  {
    InitialInvariant(s);
    RunKeeps(s, actions);
    var t := Last(s, actions);
    assert WorkerOk(t.workers[w], t.users, t.audits, t.clock);
    hide Runs, Last, Exclusive, UsersOk, AppliesTo, InOrder;
  }

  // ------------------------------------------------------------------ row locks

  /** The order every transaction takes its locks in: users by id, then the audit row. */
  predicate Below(a: Resource, b: Resource) {
    match (a, b)
    case (UserLock(u), UserLock(v)) => u < v
    case (UserLock(_), AuditLock(_)) => true
    case _ => false
  }

  /** Everything a worker holds comes before what it waits for. */
  lemma HeldBelowWanted(s: System, w: WorkerId, r: Resource)
    requires Invariant(s) && w in s.workers
    requires Wanted(s, s.workers[w]).Some? && Holds(s.workers[w], r)
    ensures Below(r, Wanted(s, s.workers[w]).value)
  {
    var worker := s.workers[w];
    assert WorkerOk(worker, s.users, s.audits, s.clock);
    hide Invariant, AppliesTo;
    if worker.phase.Applying? {
      var writes, pending := worker.phase.writes, worker.phase.pending;
      var i :| 0 <= i < |writes| && writes[i].user == r.user;
      assert worker.audience[i] == WriteUsers(writes)[i];
      assert worker.audience[|writes|] == ClaimUsers(pending)[0];
    }
  }

  ghost predicate WaitsFor(s: System, v: WorkerId, w: WorkerId) {
    && v in s.workers && w in s.workers && v != w
    && Wanted(s, s.workers[v]).Some? && Holds(s.workers[w], Wanted(s, s.workers[v]).value)
  }

  ghost predicate WaitChain(s: System, ws: seq<WorkerId>) {
    forall i, j :: 0 <= i && j == i + 1 && j < |ws| ==> WaitsFor(s, ws[i], ws[j])
  }

  ghost predicate WaitCycle(s: System, ws: seq<WorkerId>) {
    |ws| >= 1 && WaitChain(s, ws) && WaitsFor(s, ws[|ws| - 1], ws[0])
  }

  /** Along a chain of waiting workers the wanted locks ascend. */
  lemma {:induction false} ChainAscends(s: System, ws: seq<WorkerId>)
    requires Invariant(s) && WaitChain(s, ws) && |ws| >= 2
    requires ws[|ws| - 1] in s.workers && Wanted(s, s.workers[ws[|ws| - 1]]).Some?
    ensures ws[0] in s.workers && Wanted(s, s.workers[ws[0]]).Some?
    ensures Below(Wanted(s, s.workers[ws[0]]).value, Wanted(s, s.workers[ws[|ws| - 1]]).value)
  {
    var n := |ws|;
    assert WaitsFor(s, ws[n - 2], ws[n - 1]);
    HeldBelowWanted(s, ws[n - 1], Wanted(s, s.workers[ws[n - 2]]).value);
    if n > 2 {
      hide Invariant, Holds, Wanted;
      assert WaitChain(s, ws[..n - 1]);
      ChainAscends(s, ws[..n - 1]);
    }
  }

  /** In every reachable state no set of workers waits for each other in a circle. */
  lemma NoDeadlock(s: System, actions: seq<Action>, ws: seq<WorkerId>)
    requires Initial(s) && Runs(s, actions)
    ensures !WaitCycle(Last(s, actions), ws)
  {
    InitialInvariant(s);
    RunKeeps(s, actions);
    NoCycle(Last(s, actions), ws);
  }

  lemma NoCycle(s: System, ws: seq<WorkerId>)
    requires Invariant(s)
    ensures !WaitCycle(s, ws)
  {
    if WaitCycle(s, ws) && |ws| >= 2 {
      var last := ws[|ws| - 1];
      ChainAscends(s, ws);
      HeldBelowWanted(s, ws[0], Wanted(s, s.workers[last]).value);
    }
  }

  ghost predicate Live(s: System, w: WorkerId) {
    w in s.workers && !Ended(s.workers[w].phase)
  }

  /** The workers that want this lock or a later one. */
  ghost function WantingFrom(s: System, r: Resource): set<WorkerId> {
    set w | w in s.workers && Wanted(s, s.workers[w]).Some?
      && (Wanted(s, s.workers[w]).value == r || Below(r, Wanted(s, s.workers[w]).value))
  }

  /** From a waiting worker, following the holders reaches one that does not wait. */
  lemma {:induction false} SomeoneProceeds(s: System, w: WorkerId) returns (free: WorkerId)
    requires Invariant(s) && Live(s, w)
    ensures Live(s, free) && !Blocked(s, free)
    decreases if Wanted(s, s.workers[w]).Some? then WantingFrom(s, Wanted(s, s.workers[w]).value) else {}
  {
    if Blocked(s, w) {
      var wanted := Wanted(s, s.workers[w]).value;
      var v :| v in s.workers && v != w && Holds(s.workers[v], wanted);
      if Blocked(s, v) {
        HeldBelowWanted(s, v, wanted);
        assert w in WantingFrom(s, wanted);
        hide Invariant, Holds;
        assert WantingFrom(s, Wanted(s, s.workers[v]).value) < WantingFrom(s, wanted);
        free := SomeoneProceeds(s, v);
      } else {
        free := v;
      }
    } else {
      free := w;
    }
  }

  /** Only webhooks check, record and release, and only users left to read are fetched. */
  lemma PhaseFitsJob(s: System, w: WorkerId)
    requires Invariant(s) && w in s.workers
    ensures match s.workers[w].phase
      case Arrived => true
      case Reading(_, _) => true
      case Fetching(todo, _, _) => todo != []
      case Applying(_, _) => true
      case Committing(_, _, _) => true
      case Done(_) => true
      case Crashed => true
      case _ => s.workers[w].job.Webhook?
  {
    assert WorkerOk(s.workers[w], s.users, s.audits, s.clock);
    hide Invariant, Fresh, Settled, Ascending;
  }

  predicate Early(phase: Phase) {
    phase.Arrived? || phase.Leased? || phase.LegacyCheck? || phase.Cleared? || phase.Reading? || phase.Fetching?
  }

  lemma EarlyMoves(s: System, w: WorkerId, snapshot: Snapshot, stamp: string) returns (step: Step)
    requires Invariant(s) && w in s.workers && Early(s.workers[w].phase) && s.clock < DATETIME_MAX
    ensures Ready(s, w, step) && !step.Fault? && !step.Abort? && !step.Crash?
  {
    hide Invariant, Blocked;
    PhaseFitsJob(s, w);
    match s.workers[w].phase
    case Arrived => step := if s.workers[w].job.Webhook? then Arrive(false) else Start;
    case Leased => step := CheckOwn;
    case LegacyCheck => step := CheckLegacy;
    case Cleared => step := Start;
    case Reading(todo, _) => step := if todo == [] then StartApply else Baseline;
    case Fetching(_, _, _) => step := Answer(snapshot, stamp);
  }

  lemma LateMoves(s: System, w: WorkerId, excess: Excess) returns (step: Step)
    requires Invariant(s) && Live(s, w) && !Early(s.workers[w].phase) && !Blocked(s, w)
    ensures Ready(s, w, step) && !step.Fault? && !step.Abort? && !step.Crash?
  {
    hide Invariant, Blocked;
    PhaseFitsJob(s, w);
    match s.workers[w].phase
    case Applying(pending, _) => step := if pending == [] then FinishApply else LockAndApply(excess);
    case Auditing(_, _, _) => step := SelectAudit;
    case Inserting(_, _, _) => step := InsertAudit;
    case Committing(_, _, _) => step := Commit(true);
    case Failing => step := RecordError;
    case Colliding => step := Consult;
    case Releasing(_) => step := Release(true);
  }

  /** A live worker that does not wait has an ordinary next step. */
  lemma UnblockedMoves(s: System, w: WorkerId, snapshot: Snapshot, stamp: string, excess: Excess) returns (step: Step)
    requires Invariant(s) && Live(s, w) && !Blocked(s, w) && s.clock < DATETIME_MAX
    ensures Ready(s, w, step) && !step.Fault? && !step.Abort? && !step.Crash?
  {
    hide Invariant, Blocked, Ready;
    if Early(s.workers[w].phase) {
      step := EarlyMoves(s, w, snapshot, stamp);
    } else {
      step := LateMoves(s, w, excess);
    }
  }

  /** While any run is unfinished, some run can take its next ordinary step. */
  lemma Progress(s: System, actions: seq<Action>, w: WorkerId, snapshot: Snapshot, stamp: string, excess: Excess)
    returns (v: WorkerId, step: Step)
    requires Initial(s) && Runs(s, actions)
    requires Live(Last(s, actions), w) && Last(s, actions).clock < DATETIME_MAX
    ensures v in Last(s, actions).workers && Ready(Last(s, actions), v, step)
    ensures !step.Fault? && !step.Abort? && !step.Crash?
  {
    InitialInvariant(s);
    RunKeeps(s, actions);
    v := SomeoneProceeds(Last(s, actions), w);
    step := UnblockedMoves(Last(s, actions), v, snapshot, stamp, excess);
  }
}
