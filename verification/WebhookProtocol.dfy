/**
 The webhook handler, the reconciliation job and the restore as concurrent workers over a
 lease store, an audit table and user rows (app/api/purchase.py, app/services/purchase.py).
 Each action is one point at which another worker may run.
 */
module WebhookProtocol {
  import opened Prelude
  import opened Evidence
  import opened Projection

  type Key = string
  type UserId = nat
  type WorkerId = nat

  datatype Result = Success | Skipped | Error

  /** A webhook_transactions row; eventId is payload.event.id. */
  datatype Audit = Audit(result: Result, eventId: Option<Key>)

  predicate Terminal(result: Result) {
    result.Success? || result.Skipped?
  }

  /** Solo is a scheduled or restore reconciliation of one user. */
  datatype Job =
    | Webhook(eventId: Option<Key>, storeId: Option<Key>, correlationId: Key, mutating: bool, named: seq<UserId>)
    | Solo(user: UserId)

  /** `event.id or event.transaction_id or correlation_id` */
  function KeyOf(job: Job): Key
    requires job.Webhook?
  {
    if job.eventId.Some? then job.eventId.value
    else if job.storeId.Some? then job.storeId.value
    else job.correlationId
  }

  /** The store transaction key of older handlers, looked up only for events with an id of their own. */
  function LegacyKey(job: Job): Option<Key>
    requires job.Webhook?
  {
    if job.eventId.Some? && job.storeId.Some? && job.storeId != job.eventId then job.storeId else None
  }

  datatype Resource = UserLock(user: UserId) | AuditLock(key: Key)

  datatype Claim = Claim(user: UserId, proposal: Proposal)

  /** A buffered row update: the row the lock showed, and the row the apply left. */
  datatype Write = Write(user: UserId, before: User, proposal: Proposal, excess: Excess, after: User)

  /** What a transaction will do to the audit row it has locked. */
  datatype Effect = NoAudit | Keep | Put(audit: Audit, insert: bool)

  datatype Phase =
    | Arrived
    | Leased
    | LegacyCheck
    | Cleared
    | Reading(todo: seq<UserId>, claims: seq<Claim>)
    | Fetching(todo: seq<UserId>, claims: seq<Claim>, baseline: User)
    | Applying(pending: seq<Claim>, writes: seq<Write>)
    | Auditing(audit: Audit, writes: seq<Write>, failing: bool)
    | Inserting(audit: Audit, writes: seq<Write>, failing: bool)
    | Committing(effect: Effect, writes: seq<Write>, failing: bool)
    | Failing
    | Colliding
    | Releasing(reply: bool)
    | Done(reply: bool)
    | Crashed

  /**
   audience: the participants this run reads and applies.  committed and collided record
   whether the run's own transaction took effect and whether it met a stale baseline or a
   concurrent audit insert.
   */
  datatype Worker = Worker(job: Job, phase: Phase, audience: seq<UserId>, committed: bool, collided: bool)

  datatype Entry = Entry(worker: WorkerId, write: Write)

  /** journal lists the committed row updates of all workers in commit order. */
  datatype System = System(
    leases: map<Key, WorkerId>,
    audits: map<Key, Audit>,
    users: map<UserId, User>,
    workers: map<WorkerId, Worker>,
    clock: Instant,
    journal: seq<Entry>)

  // -------------------------------------------------------------------- locks

  function WritesOf(phase: Phase): seq<Write> {
    match phase
    case Applying(_, writes) => writes
    case Auditing(_, writes, _) => writes
    case Inserting(_, writes, _) => writes
    case Committing(_, writes, _) => writes
    case _ => []
  }

  /** The row locks a worker holds in its phase. */
  ghost predicate Holds(worker: Worker, r: Resource) {
    match r
    case UserLock(u) => exists i :: 0 <= i < |WritesOf(worker.phase)| && WritesOf(worker.phase)[i].user == u
    case AuditLock(k) =>
      worker.job.Webhook? && KeyOf(worker.job) == k && worker.phase.Committing? && !worker.phase.effect.NoAudit?
  }

  ghost predicate HeldByOther(s: System, w: WorkerId, r: Resource) {
    exists v :: v in s.workers && v != w && Holds(s.workers[v], r)
  }

  /** The lock the worker's next statement needs, if that statement can wait for one. */
  function Wanted(s: System, worker: Worker): Option<Resource> {
    match worker.phase
    case Applying(pending, _) => if pending == [] then None else Some(UserLock(pending[0].user))
    case Auditing(_, _, _) =>
      if worker.job.Webhook? && KeyOf(worker.job) in s.audits then Some(AuditLock(KeyOf(worker.job))) else None
    case Inserting(_, _, _) =>
      if worker.job.Webhook? && KeyOf(worker.job) !in s.audits then Some(AuditLock(KeyOf(worker.job))) else None
    case _ => None
  }

  /** The worker waits on a row lock of another transaction. */
  ghost predicate Blocked(s: System, w: WorkerId)
    requires w in s.workers
  {
    var wanted := Wanted(s, s.workers[w]);
    wanted.Some? && HeldByOther(s, w, wanted.value)
  }

  // ------------------------------------------------------------------ actions

  /** One statement of a worker, up to the next point where another may run. */
  datatype Step =
    | Arrive(lost: bool)
    | CheckOwn
    | CheckLegacy
    | Start
    | Baseline
    | Answer(snapshot: Snapshot, stamp: string)
    | StartApply
    | LockAndApply(excess: Excess)
    | FinishApply
    | SelectAudit
    | InsertAudit
    | Commit(reported: bool)
    | RecordError
    | Consult
    | Release(reached: bool)
    | Fault
    | Abort
    | Crash

  /** Expire ends a lease early; Outside is another writer's committed change of one user row. */
  datatype Action =
    | Spawn(newcomer: WorkerId, job: Job)
    | By(w: WorkerId, step: Step)
    | Expire(key: Key)
    | Outside(user: UserId, row: User)

  predicate Ended(phase: Phase) {
    phase.Done? || phase.Crashed?
  }

  /** The phase after an exception the handler answers: a webhook past its audit check records the error. */
  function OnFault(worker: Worker): Phase {
    if worker.job.Solo? || worker.phase.Arrived? then Done(false)
    else
      match worker.phase
      case Cleared => Failing
      case Reading(_, _) => Failing
      case Fetching(_, _, _) => Failing
      case Applying(_, _) => Failing
      case Auditing(_, _, failing) => if failing then Releasing(false) else Failing
      case Inserting(_, _, failing) => if failing then Releasing(false) else Failing
      case Committing(_, _, failing) => if failing then Releasing(false) else Failing
      case _ => Releasing(false)
  }

  /** The phase after an exception the handler lets through: rollback, then the lease is released. */
  function OnAbort(worker: Worker): Phase {
    if worker.job.Solo? || worker.phase.Arrived? then Done(false) else Releasing(false)
  }

  ghost predicate Enabled(s: System, a: Action) {
    match a
    case Spawn(w, job) => w !in s.workers && (job.Webhook? ==> Ascending(job.named))
    case By(w, step) => w in s.workers && Ready(s, w, step)
    case Expire(key) => key in s.leases
    case Outside(u, row) =>
      && (forall v :: v in s.workers ==> !Holds(s.workers[v], UserLock(u)))
      && (if u in s.users then row.verifiedAt == s.users[u].verifiedAt else row.verifiedAt.None?)
  }

  ghost predicate Ready(s: System, w: WorkerId, step: Step)
    requires w in s.workers
  {
    var worker := s.workers[w];
    var phase := worker.phase;
    match step
    case Arrive(_) => phase.Arrived? && worker.job.Webhook?
    case CheckOwn => phase.Leased? && worker.job.Webhook?
    case CheckLegacy => phase.LegacyCheck? && worker.job.Webhook?
    case Start => (phase.Cleared? && worker.job.Webhook?) || (phase.Arrived? && worker.job.Solo?)
    case Baseline => phase.Reading? && phase.todo != []
    case Answer(_, _) => phase.Fetching? && phase.todo != [] && s.clock < DATETIME_MAX
    case StartApply => phase.Reading? && phase.todo == []
    case LockAndApply(_) => phase.Applying? && phase.pending != [] && !Blocked(s, w)
    case FinishApply => phase.Applying? && phase.pending == []
    case SelectAudit => phase.Auditing? && worker.job.Webhook? && !Blocked(s, w)
    case InsertAudit => phase.Inserting? && worker.job.Webhook? && !Blocked(s, w)
    case Commit(_) => phase.Committing?
    case RecordError => phase.Failing? && worker.job.Webhook?
    case Consult => phase.Colliding? && worker.job.Webhook?
    case Release(_) => phase.Releasing? && worker.job.Webhook?
    case Crash => !Ended(phase)
    case _ => !Ended(phase) && !phase.Releasing?
  }

  predicate Ascending(ids: seq<UserId>) {
    forall i, j :: 0 <= i < j < |ids| ==> ids[i] < ids[j]
  }

  /** `[id for id in ids if id in existing]` over the rows that are not deleted. */
  function Existing(users: map<UserId, User>, ids: seq<UserId>): seq<UserId> {
    if ids == [] then []
    else (if ids[0] in users && !users[ids[0]].deleted then [ids[0]] else []) + Existing(users, ids[1..])
  }

  ghost function Move(s: System, w: WorkerId, phase: Phase): System
    requires w in s.workers
  {
    s.(workers := s.workers[w := s.workers[w].(phase := phase)])
  }

  ghost function Collide(s: System, w: WorkerId, phase: Phase): System
    requires w in s.workers
  {
    s.(workers := s.workers[w := s.workers[w].(phase := phase, collided := true)])
  }

  predicate TerminalAt(audits: map<Key, Audit>, key: Key) {
    key in audits && Terminal(audits[key].result)
  }

  function AfterWrites(users: map<UserId, User>, writes: seq<Write>): map<UserId, User> {
    if writes == [] then users
    else
      var last := |writes| - 1;
      AfterWrites(users, writes[..last])[writes[last].user := writes[last].after]
  }

  function AfterEffect(audits: map<Key, Audit>, job: Job, effect: Effect): map<Key, Audit> {
    if job.Webhook? && effect.Put? then audits[KeyOf(job) := effect.audit] else audits
  }

  function Entries(w: WorkerId, writes: seq<Write>): seq<Entry> {
    seq(|writes|, i requires 0 <= i < |writes| => Entry(w, writes[i]))
  }

  ghost function Next(s: System, a: Action): System
    requires Enabled(s, a)
  {
    match a
    case Spawn(w, job) => s.(workers := s.workers[w := Worker(job, Arrived, [], false, false)])
    case By(w, step) => Stepped(s, w, step)
    case Expire(key) => s.(leases := s.leases - {key})
    case Outside(u, row) => s.(users := s.users[u := row])
  }

  ghost function Stepped(s: System, w: WorkerId, step: Step): System
    requires w in s.workers && Ready(s, w, step)
  {
    var worker := s.workers[w];
    var phase := worker.phase;
    match step
    case Arrive(lost) => Arriving(s, w, lost)
    case CheckOwn => Move(s, w, OwnAudit(s.audits, worker.job))
    case CheckLegacy => Move(s, w, LegacyAudit(s.audits, worker.job))
    case Start =>
      var audience := Audience(s.users, worker.job);
      if worker.job.Webhook? && audience == []
      then Move(s, w, Auditing(Audit(Skipped, worker.job.eventId), [], false))
      else s.(workers := s.workers[w := worker.(phase := Reading(audience, []), audience := audience)])
    case Baseline =>
      var u := phase.todo[0];
      if u in s.users && !s.users[u].deleted then Move(s, w, Fetching(phase.todo, phase.claims, s.users[u]))
      else Move(s, w, OnFault(worker))
    case Answer(snapshot, stamp) =>
      Move(s.(clock := s.clock + 1), w,
        match Read(phase.baseline, snapshot, s.clock, stamp)
        case Rejected => OnAbort(worker)
        case Accepted(p) => Reading(phase.todo[1..], phase.claims + [Claim(phase.todo[0], p)]))
    case StartApply => Move(s, w, Applying(phase.claims, []))
    case LockAndApply(excess) => Locking(s, w, phase.pending[0], excess)
    case FinishApply =>
      Move(s, w, if worker.job.Solo? then Committing(NoAudit, phase.writes, false)
                 else Auditing(Audit(Success, worker.job.eventId), phase.writes, false))
    // SELECT ... FOR UPDATE on the audit row: a terminal row is left as it is.
    case SelectAudit =>
      var key := KeyOf(worker.job);
      Move(s, w, if key !in s.audits then Inserting(phase.audit, phase.writes, phase.failing)
                 else if Terminal(s.audits[key].result) then Committing(Keep, phase.writes, phase.failing)
                 else Committing(Put(phase.audit, false), phase.writes, phase.failing))
    // INSERT: the unique index rejects it once another row with the key has committed.
    case InsertAudit =>
      if KeyOf(worker.job) in s.audits then Collide(s, w, Colliding)
      else Move(s, w, Committing(Put(phase.audit, true), phase.writes, phase.failing))
    case Commit(reported) => Committed(s, w, reported)
    case RecordError => Move(s, w, Auditing(Audit(Error, worker.job.eventId), [], true))
    case Consult => Move(s, w, Releasing(TerminalAt(s.audits, KeyOf(worker.job))))
    // Compare the token, then delete; an unreachable store is logged and the lease stays.
    case Release(reached) =>
      var key := KeyOf(worker.job);
      Move(if reached && key in s.leases && s.leases[key] == w then s.(leases := s.leases - {key}) else s, w, Done(phase.reply))
    case Fault => Move(s, w, OnFault(worker))
    case Abort => Move(s, w, OnAbort(worker))
    case Crash => Move(s, w, Crashed)
  }

  /** SET key token NX: refused while any lease stands; the reply to a taken lease may be lost. */
  ghost function Arriving(s: System, w: WorkerId, lost: bool): System
    requires w in s.workers && s.workers[w].job.Webhook?
  {
    var key := KeyOf(s.workers[w].job);
    if key in s.leases then Move(s, w, Done(false))
    else Move(s.(leases := s.leases[key := w]), w, if lost then Done(false) else Leased)
  }

  function OwnAudit(audits: map<Key, Audit>, job: Job): Phase
    requires job.Webhook?
  {
    if TerminalAt(audits, KeyOf(job)) then Releasing(true)
    else if KeyOf(job) !in audits && LegacyKey(job).Some? then LegacyCheck
    else Cleared
  }

  function LegacyAudit(audits: map<Key, Audit>, job: Job): Phase
    requires job.Webhook?
  {
    var legacy := LegacyKey(job);
    if legacy.Some? && TerminalAt(audits, legacy.value) && audits[legacy.value].eventId == Some(KeyOf(job))
    then Releasing(true)
    else Cleared
  }

  function Audience(users: map<UserId, User>, job: Job): seq<UserId> {
    if job.Solo? then [job.user] else if job.mutating then Existing(users, job.named) else []
  }

  /** SELECT ... FOR UPDATE, then compare and assign in the transaction's buffer. */
  ghost function Locking(s: System, w: WorkerId, claim: Claim, excess: Excess): (t: System)
    requires w in s.workers && s.workers[w].phase.Applying? && s.workers[w].phase.pending != []
    ensures w in t.workers
  {
    var worker := s.workers[w];
    if claim.user !in s.users then Collide(s, w, OnFault(worker))
    else
      match Apply(s.users[claim.user], claim.proposal, excess)
      case Rejected => Move(s, w, OnAbort(worker))
      case Accepted(Conflict) => Collide(s, w, OnFault(worker))
      case Accepted(Applied(after)) =>
        Move(s, w, Applying(
          worker.phase.pending[1..],
          worker.phase.writes + [Write(claim.user, s.users[claim.user], claim.proposal, excess, after)]))
  }

  /** The buffered rows and the audit take effect together; the commit's answer may be lost. */
  ghost function Committed(s: System, w: WorkerId, reported: bool): System
    requires w in s.workers && s.workers[w].phase.Committing?
  {
    var worker := s.workers[w];
    var phase := worker.phase;
    var next :=
      if !reported then OnFault(worker)
      else if worker.job.Solo? then Done(true)
      else Releasing(!phase.failing || phase.effect.Keep?);
    s.(users := AfterWrites(s.users, phase.writes),
       audits := AfterEffect(s.audits, worker.job, phase.effect),
       journal := s.journal + Entries(w, phase.writes),
       workers := s.workers[w := worker.(phase := next, committed := worker.committed || !phase.failing)])
  }

  ghost predicate Initial(s: System) {
    && s.leases == map[] && s.workers == map[] && s.journal == []
    && forall u :: u in s.users ==> Before(s.users[u].verifiedAt, s.clock)
  }

  predicate Before(at: Option<Instant>, t: Instant) {
    at.None? || at.value < t
  }

  /** The system can go through the actions, one after the other. */
  ghost predicate Runs(s: System, actions: seq<Action>)
    decreases |actions|
  {
    actions == [] || (Enabled(s, actions[0]) && Runs(Next(s, actions[0]), actions[1..]))
  }

  ghost function Last(s: System, actions: seq<Action>): System
    requires Runs(s, actions)
    decreases |actions|
  {
    if actions == [] then s else Last(Next(s, actions[0]), actions[1..])
  }
}
