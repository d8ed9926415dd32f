/** The invariant of the webhook protocol and its preservation by every action. */
module WebhookInvariant {
  import opened Prelude
  import opened Evidence
  import opened Projection
  import opened WebhookProtocol

  // ---------------------------------------------------------- facts on applies

  predicate AppliesTo(write: Write) {
    Apply(write.before, write.proposal, write.excess) == Accepted(Applied(write.after))
  }

  /** An applied proposal found the baseline it read and leaves its own verification time. */
  lemma AppliedBaseline(write: Write)
    requires AppliesTo(write)
    ensures Current(write.before, write.proposal)
    ensures write.before.verifiedAt == write.proposal.beforeVerifiedAt
    ensures write.after.verifiedAt == Some(write.proposal.verifiedAt)
  {
    hide WithRemoveAds, WithSnapshot, HasRemoveAds, SubscriptionOf;
  }

  lemma ReadBaseline(u: User, s: Snapshot, at: Instant, stamp: string)
    requires Read(u, s, at, stamp).Accepted?
    ensures var p := Read(u, s, at, stamp).value; p.beforeVerifiedAt == u.verifiedAt && p.verifiedAt == at
  {
    hide Matches, HasRemoveAds, SubscriptionOf;
  }

  // ------------------------------------------------------------ what a worker knows

  function ClaimUsers(claims: seq<Claim>): seq<UserId> {
    seq(|claims|, i requires 0 <= i < |claims| => claims[i].user)
  }

  function WriteUsers(writes: seq<Write>): seq<UserId> {
    seq(|writes|, i requires 0 <= i < |writes| => writes[i].user)
  }

  /** The proposal was read from a row verified earlier, and before now. */
  predicate FreshProposal(p: Proposal, clock: Instant) {
    Before(p.beforeVerifiedAt, p.verifiedAt) && p.verifiedAt < clock
  }

  predicate FreshClaims(claims: seq<Claim>, clock: Instant) {
    forall i :: 0 <= i < |claims| ==> FreshProposal(claims[i].proposal, clock)
  }

  /** The buffered update is of the row as committed, which the lock keeps from changing. */
  predicate WriteReady(write: Write, users: map<UserId, User>, clock: Instant) {
    && write.user in users
    && users[write.user] == write.before
    && AppliesTo(write)
    && FreshProposal(write.proposal, clock)
  }

  predicate WritesReady(writes: seq<Write>, users: map<UserId, User>, clock: Instant) {
    forall i :: 0 <= i < |writes| ==> WriteReady(writes[i], users, clock)
  }

  /** Participants of a webhook are among the users its event names, and the event is one that reconciles. */
  predicate AmongNamed(worker: Worker) {
    worker.job.Webhook? && worker.audience != [] ==>
      worker.job.mutating && forall u :: u in worker.audience ==> u in worker.job.named
  }

  /** A webhook without participants reads and applies nothing. */
  predicate HasAudience(worker: Worker) {
    worker.job.Webhook? ==> worker.audience != []
  }

  /** The run goes over its audience in order, each participant once. */
  predicate Covers(worker: Worker) {
    && Ascending(worker.audience) && AmongNamed(worker)
    && (worker.job.Webhook? ==> Ascending(worker.job.named))
    && match worker.phase
       case Reading(todo, claims) => HasAudience(worker) && ClaimUsers(claims) + todo == worker.audience
       case Fetching(todo, claims, _) =>
         HasAudience(worker) && todo != [] && ClaimUsers(claims) + todo == worker.audience
       case Applying(pending, writes) => HasAudience(worker) && WriteUsers(writes) + ClaimUsers(pending) == worker.audience
       case Auditing(_, writes, failing) => WriteUsers(writes) == if failing then [] else worker.audience
       case Inserting(_, writes, failing) => WriteUsers(writes) == if failing then [] else worker.audience
       case Committing(_, writes, failing) => WriteUsers(writes) == if failing then [] else worker.audience
       case Releasing(_) => true
       case Failing => true
       case Colliding => true
       case Done(_) => true
       case Crashed => true
       case _ => worker.audience == []
  }

  predicate Fresh(worker: Worker, users: map<UserId, User>, clock: Instant) {
    match worker.phase
    case Reading(_, claims) => FreshClaims(claims, clock)
    case Fetching(_, claims, baseline) => FreshClaims(claims, clock) && Before(baseline.verifiedAt, clock)
    case Applying(pending, writes) => FreshClaims(pending, clock) && WritesReady(writes, users, clock)
    case _ => WritesReady(WritesOf(worker.phase), users, clock)
  }

  /** An audit in hand is an error on the failing path, and otherwise success exactly with participants. */
  predicate Disposed(worker: Worker, audit: Audit, failing: bool) {
    && worker.job.Webhook? && audit.eventId == worker.job.eventId
    && (failing <==> audit.result.Error?)
    && (!failing ==> (audit.result.Success? <==> worker.audience != []))
  }

  /** An insert is of an absent key, an update of a row that is not terminal. */
  predicate AuditReady(worker: Worker, audits: map<Key, Audit>) {
    match worker.phase
    case Auditing(audit, _, failing) => Disposed(worker, audit, failing)
    case Inserting(audit, _, failing) => Disposed(worker, audit, failing)
    case Committing(effect, _, failing) =>
      if worker.job.Solo? then effect.NoAudit? && !failing
      else
        (match effect
         case NoAudit => false
         case Keep => TerminalAt(audits, KeyOf(worker.job))
         case Put(audit, insert) =>
           && Disposed(worker, audit, failing)
           && !TerminalAt(audits, KeyOf(worker.job))
           && (insert <==> KeyOf(worker.job) !in audits))
    case Arrived => true
    case Reading(_, _) => true
    case Fetching(_, _, _) => true
    case Applying(_, _) => true
    case Done(_) => true
    case Crashed => true
    case _ => worker.job.Webhook?
  }

  /** A committed terminal audit answers for the event, under its own key or the legacy one. */
  predicate Acknowledged(audits: map<Key, Audit>, job: Job)
    requires job.Webhook?
  {
    || TerminalAt(audits, KeyOf(job))
    || (LegacyKey(job).Some? && TerminalAt(audits, LegacyKey(job).value)
        && audits[LegacyKey(job).value].eventId == Some(KeyOf(job)))
  }

  predicate Succeeding(phase: Phase) {
    phase == Releasing(true) || phase == Done(true)
  }

  /** Past its own commit a run can only end, or find its own terminal audit. */
  predicate AfterCommit(worker: Worker) {
    match worker.phase
    case Failing => true
    case Auditing(_, _, failing) => failing
    case Committing(effect, _, failing) => failing && effect.Keep?
    case Releasing(_) => true
    case Done(_) => true
    case Crashed => true
    case _ => false
  }

  /** Past a stale baseline or an audit collision a run can only unwind. */
  predicate Unwinding(phase: Phase) {
    match phase
    case Auditing(_, _, failing) => failing
    case Inserting(_, _, failing) => failing
    case Committing(_, _, failing) => failing
    case Failing => true
    case Colliding => true
    case Releasing(_) => true
    case Done(_) => true
    case Crashed => true
    case _ => false
  }

  predicate Settled(worker: Worker, audits: map<Key, Audit>) {
    && (worker.job.Webhook? && Succeeding(worker.phase) ==> Acknowledged(audits, worker.job))
    && (worker.collided ==> Unwinding(worker.phase))
    && (worker.committed ==> AfterCommit(worker) && !worker.collided)
    && (worker.committed && worker.job.Webhook? ==> TerminalAt(audits, KeyOf(worker.job)))
  }

  predicate WorkerOk(worker: Worker, users: map<UserId, User>, audits: map<Key, Audit>, clock: Instant) {
    Covers(worker) && Fresh(worker, users, clock) && AuditReady(worker, audits) && Settled(worker, audits)
  }

  // ------------------------------------------------------------- the invariant

  ghost predicate Exclusive(workers: map<WorkerId, Worker>) {
    forall v, w, r :: v in workers && w in workers && Holds(workers[v], r) && Holds(workers[w], r) ==> v == w
  }

  ghost predicate UsersOk(users: map<UserId, User>, clock: Instant) {
    forall u :: u in users ==> Before(users[u].verifiedAt, clock)
  }

  /** A committed update applied to its baseline, by a run that committed, and is not undone. */
  ghost predicate EntryOk(s: System, e: Entry) {
    && e.worker in s.workers && s.workers[e.worker].committed
    && AppliesTo(e.write)
    && Before(e.write.proposal.beforeVerifiedAt, e.write.proposal.verifiedAt)
    && e.write.user in s.users
    && !Before(s.users[e.write.user].verifiedAt, e.write.proposal.verifiedAt)
  }

  /** The later of two updates of a user read what the earlier one left, or something newer. */
  ghost predicate InOrder(journal: seq<Entry>) {
    forall i, j :: 0 <= i < j < |journal| && journal[i].write.user == journal[j].write.user ==>
      !Before(journal[j].write.proposal.beforeVerifiedAt, journal[i].write.proposal.verifiedAt)
  }

  ghost predicate JournalOk(s: System) {
    (forall i :: 0 <= i < |s.journal| ==> EntryOk(s, s.journal[i])) && InOrder(s.journal)
  }

  ghost predicate WorkersOk(s: System) {
    forall w :: w in s.workers ==> WorkerOk(s.workers[w], s.users, s.audits, s.clock)
  }

  ghost predicate Invariant(s: System) {
    WorkersOk(s) && Exclusive(s.workers) && UsersOk(s.users, s.clock) && JournalOk(s)
  }

  lemma InitialInvariant(s: System)
    requires Initial(s)
    ensures Invariant(s)
  {
  }

  // ------------------------------------------------------------------ stability

  /** Terminal rows stay as they are, and no row disappears. */
  ghost predicate AuditsEvolve(before: map<Key, Audit>, after: map<Key, Audit>) {
    && (forall k :: k in before ==> k in after)
    && (forall k :: TerminalAt(before, k) ==> after[k] == before[k])
  }

  /** What a worker knows survives a step that leaves the rows it holds alone. */
  lemma WorkerStable(
    worker: Worker, users: map<UserId, User>, users': map<UserId, User>,
    audits: map<Key, Audit>, audits': map<Key, Audit>, clock: Instant, clock': Instant)
    requires WorkerOk(worker, users, audits, clock)
    requires clock <= clock' && AuditsEvolve(audits, audits')
    requires forall u :: Holds(worker, UserLock(u)) && u in users ==> u in users' && users'[u] == users[u]
    requires worker.job.Webhook? && Holds(worker, AuditLock(KeyOf(worker.job))) ==>
      (KeyOf(worker.job) in audits' <==> KeyOf(worker.job) in audits)
      && (KeyOf(worker.job) in audits ==> audits'[KeyOf(worker.job)] == audits[KeyOf(worker.job)])
    ensures WorkerOk(worker, users', audits', clock')
  {
    hide AppliesTo;
    var writes := WritesOf(worker.phase);
    forall i | 0 <= i < |writes|
      ensures users[writes[i].user] == writes[i].before ==> writes[i].user in users ==>
        writes[i].user in users' && users'[writes[i].user] == users[writes[i].user]
    {
      assert Holds(worker, UserLock(writes[i].user));
    }
  }
}
