/** Every action keeps the invariant of the webhook protocol. */
module WebhookSteps {
  import opened Prelude
  import opened Evidence
  import opened Projection
  import opened WebhookProtocol
  import opened WebhookInvariant

  /** A step of one worker that commits nothing. */
  ghost predicate LocalStep(s: System, t: System, w: WorkerId, x: Worker) {
    && t.workers == s.workers[w := x]
    && t.users == s.users && t.audits == s.audits && t.journal == s.journal && s.clock <= t.clock
    && (w in s.workers ==> s.workers[w].committed ==> x.committed)
  }

  lemma LocalStepKeeps(s: System, t: System, w: WorkerId, x: Worker)
    requires Invariant(s) && LocalStep(s, t, w, x)
    requires WorkerOk(x, t.users, t.audits, t.clock)
    requires forall r :: Holds(x, r) && (w !in s.workers || !Holds(s.workers[w], r)) ==> !HeldByOther(s, w, r)
    ensures Invariant(t)
  {
    LocalWorkers(s, t, w, x);
    hide WorkerOk;
    forall v, u, r | v in t.workers && u in t.workers && Holds(t.workers[v], r) && Holds(t.workers[u], r)
      ensures v == u
    {
    }
    hide Holds, AppliesTo;
  }

  lemma LocalWorkers(s: System, t: System, w: WorkerId, x: Worker)
    requires Invariant(s) && LocalStep(s, t, w, x)
    requires WorkerOk(x, t.users, t.audits, t.clock)
    ensures WorkersOk(t)
  {
    hide WorkerOk;
    forall v | v in t.workers
      ensures WorkerOk(t.workers[v], t.users, t.audits, t.clock)
    {
      if v != w {
        WorkerStable(s.workers[v], s.users, t.users, s.audits, t.audits, s.clock, t.clock);
      }
    }
  }

  // ------------------------------------------------------- the worker's own part

  predicate Quiet(phase: Phase) {
    phase.Failing? || phase.Colliding? || phase.Releasing? || phase.Done? || phase.Crashed?
  }

  /** A phase without locks or claims; a success reply needs its acknowledgement. */
  lemma QuietOk(s: System, w: WorkerId, phase: Phase, collided: bool)
    requires w in s.workers && WorkerOk(s.workers[w], s.users, s.audits, s.clock)
    requires Quiet(phase)
    requires s.workers[w].job.Solo? ==> phase.Done? || phase.Crashed?
    requires s.workers[w].job.Webhook? && Succeeding(phase) ==> Acknowledged(s.audits, s.workers[w].job)
    requires s.workers[w].committed ==> !phase.Colliding?
    requires collided ==> !s.workers[w].committed
    ensures WorkerOk(s.workers[w].(phase := phase, collided := collided), s.users, s.audits, s.clock)
  {
    hide Acknowledged, TerminalAt;
  }

  lemma FaultIsQuiet(worker: Worker)
    ensures Quiet(OnFault(worker)) && !Succeeding(OnFault(worker)) && !OnFault(worker).Colliding?
    ensures worker.job.Solo? ==> OnFault(worker).Done?
    ensures Quiet(OnAbort(worker)) && !Succeeding(OnAbort(worker)) && !OnAbort(worker).Colliding?
    ensures worker.job.Solo? ==> OnAbort(worker).Done?
  {
  }

  lemma QuietStepKeeps(s: System, t: System, w: WorkerId, phase: Phase, collided: bool)
    requires Invariant(s) && w in s.workers
    requires LocalStep(s, t, w, s.workers[w].(phase := phase, collided := collided))
    requires t.clock == s.clock
    requires Quiet(phase)
    requires s.workers[w].job.Solo? ==> phase.Done? || phase.Crashed?
    requires s.workers[w].job.Webhook? && Succeeding(phase) ==> Acknowledged(s.audits, s.workers[w].job)
    requires s.workers[w].committed ==> !phase.Colliding?
    requires collided ==> !s.workers[w].committed
    ensures Invariant(t)
  {
    hide WorkerOk;
    QuietOk(s, w, phase, collided);
    LocalStepKeeps(s, t, w, s.workers[w].(phase := phase, collided := collided));
  }

  // --------------------------------------------------------- one lemma per step

  predicate LockFree(phase: Phase) {
    WritesOf(phase) == [] && !phase.Committing?
  }

  lemma LockFreeStepKeeps(s: System, t: System, w: WorkerId, x: Worker)
    requires Invariant(s) && LocalStep(s, t, w, x) && LockFree(x.phase)
    requires WorkerOk(x, t.users, t.audits, t.clock)
    ensures Invariant(t)
  {
    hide WorkerOk, Invariant, HeldByOther;
    assert forall r :: !Holds(x, r);
    LocalStepKeeps(s, t, w, x);
  }

  /** Steps before any lock: arriving and checking the audit table. */
  lemma EarlyOk(worker: Worker, users: map<UserId, User>, audits: map<Key, Audit>, clock: Instant)
    requires WorkerOk(worker, users, audits, clock) && worker.job.Webhook?
    requires worker.phase.Arrived? || worker.phase.Leased? || worker.phase.LegacyCheck?
    ensures forall phase :: phase in {Leased, LegacyCheck, Cleared, Done(false)} ==>
      WorkerOk(worker.(phase := phase), users, audits, clock)
    ensures Acknowledged(audits, worker.job) ==> WorkerOk(worker.(phase := Releasing(true)), users, audits, clock)
  {
    hide Acknowledged, TerminalAt;
  }

  lemma ArriveKeeps(s: System, w: WorkerId, lost: bool)
    requires Invariant(s) && w in s.workers && Ready(s, w, Arrive(lost))
    ensures Invariant(Stepped(s, w, Arrive(lost)))
  {
    var t := Stepped(s, w, Arrive(lost));
    EarlyOk(s.workers[w], s.users, s.audits, s.clock);
    hide Invariant, WorkerOk;
    LockFreeStepKeeps(s, t, w, t.workers[w]);
  }

  lemma CheckKeeps(s: System, w: WorkerId, step: Step)
    requires Invariant(s) && w in s.workers && Ready(s, w, step)
    requires step.CheckOwn? || step.CheckLegacy?
    ensures Invariant(Stepped(s, w, step))
  {
    var t := Stepped(s, w, step);
    EarlyOk(s.workers[w], s.users, s.audits, s.clock);
    hide Invariant, WorkerOk;
    LockFreeStepKeeps(s, t, w, t.workers[w]);
  }

  lemma {:induction false} ExistingMembers(users: map<UserId, User>, ids: seq<UserId>)
    ensures forall u :: u in Existing(users, ids) <==> u in ids && u in users && !users[u].deleted
  {
    if ids != [] {
      ExistingMembers(users, ids[1..]);
      assert ids == [ids[0]] + ids[1..];
    }
  }

  lemma {:induction false} ExistingAscends(users: map<UserId, User>, ids: seq<UserId>)
    requires Ascending(ids)
    ensures Ascending(Existing(users, ids))
    ensures forall u :: u in Existing(users, ids) <==> u in ids && u in users && !users[u].deleted
  {
    ExistingMembers(users, ids);
    if ids != [] {
      var rest := Existing(users, ids[1..]);
      ExistingAscends(users, ids[1..]);
      assert forall u :: u in ids[1..] ==> ids[0] < u;
      assert Existing(users, ids) == rest || Existing(users, ids) == [ids[0]] + rest;
      hide Existing;
      forall i | 0 <= i < |rest|
        ensures ids[0] < rest[i]
      {
        assert rest[i] in rest;
      }
      hide Ascending;
      AscendingCons(ids[0], rest);
    }
  }

  lemma AscendingCons(first: UserId, rest: seq<UserId>)
    requires Ascending(rest) && forall i :: 0 <= i < |rest| ==> first < rest[i]
    ensures Ascending([first] + rest)
  {
  }

  lemma StartedOk(worker: Worker, users: map<UserId, User>, audits: map<Key, Audit>, clock: Instant, audience: seq<UserId>)
    requires WorkerOk(worker, users, audits, clock) && Ascending(audience)
    requires (worker.phase.Cleared? && worker.job.Webhook?) || (worker.phase.Arrived? && worker.job.Solo?)
    requires AmongNamed(worker.(audience := audience))
    ensures (worker.job.Webhook? ==> audience != []) ==>
      WorkerOk(worker.(phase := Reading(audience, []), audience := audience), users, audits, clock)
    ensures worker.job.Webhook? ==>
      WorkerOk(worker.(phase := Auditing(Audit(Skipped, worker.job.eventId), [], false)), users, audits, clock)
  {
  }

  lemma StartKeeps(s: System, w: WorkerId)
    requires Invariant(s) && w in s.workers && Ready(s, w, Start)
    ensures Invariant(Stepped(s, w, Start))
  {
    var worker := s.workers[w];
    var t := Stepped(s, w, Start);
    assert WorkerOk(worker, s.users, s.audits, s.clock);
    if worker.job.Webhook? {
      ExistingAscends(s.users, worker.job.named);
    }
    assert AmongNamed(worker.(audience := Audience(s.users, worker.job)));
    hide Invariant, AmongNamed;
    StartedOk(worker, s.users, s.audits, s.clock, Audience(s.users, worker.job));
    hide WorkerOk, Audience;
    LockFreeStepKeeps(s, t, w, t.workers[w]);
  }

  lemma BaselineKeeps(s: System, w: WorkerId)
    requires Invariant(s) && w in s.workers && Ready(s, w, Baseline)
    ensures Invariant(Stepped(s, w, Baseline))
  {
    var worker := s.workers[w];
    var t := Stepped(s, w, Baseline);
    assert WorkerOk(worker, s.users, s.audits, s.clock) && UsersOk(s.users, s.clock);
    hide Invariant;
    FaultIsQuiet(worker);
    if t.workers[w].phase.Fetching? {
      LockFreeStepKeeps(s, t, w, t.workers[w]);
    } else {
      hide WorkerOk, OnFault;
      QuietStepKeeps(s, t, w, OnFault(worker), worker.collided);
    }
  }

  lemma AbortedOk(worker: Worker, users: map<UserId, User>, audits: map<Key, Audit>, clock: Instant, clock': Instant)
    requires WorkerOk(worker, users, audits, clock) && clock <= clock'
    ensures WorkerOk(worker.(phase := OnAbort(worker)), users, audits, clock')
  {
  }

  lemma AnsweredOk(worker: Worker, users: map<UserId, User>, audits: map<Key, Audit>, clock: Instant, p: Proposal)
    requires WorkerOk(worker, users, audits, clock) && worker.phase.Fetching? && clock < DATETIME_MAX
    requires p.beforeVerifiedAt == worker.phase.baseline.verifiedAt && p.verifiedAt == clock
    ensures WorkerOk(
      worker.(phase := Reading(worker.phase.todo[1..], worker.phase.claims + [Claim(worker.phase.todo[0], p)])),
      users, audits, clock + 1)
  {
    var todo, claims := worker.phase.todo, worker.phase.claims;
    assert ClaimUsers(claims + [Claim(todo[0], p)]) == ClaimUsers(claims) + [todo[0]];
    assert ClaimUsers(claims) + [todo[0]] + todo[1..] == worker.audience;
  }

  /** The proposal's time is the clock's, after everything the baseline was verified at. */
  lemma AnswerKeeps(s: System, w: WorkerId, snapshot: Snapshot, stamp: string)
    requires Invariant(s) && w in s.workers && Ready(s, w, Answer(snapshot, stamp))
    ensures Invariant(Stepped(s, w, Answer(snapshot, stamp)))
  {
    var worker := s.workers[w];
    var t := Stepped(s, w, Answer(snapshot, stamp));
    assert WorkerOk(worker, s.users, s.audits, s.clock);
    hide Invariant;
    var read := Read(worker.phase.baseline, snapshot, s.clock, stamp);
    if read.Accepted? {
      ReadBaseline(worker.phase.baseline, snapshot, s.clock, stamp);
      AnsweredOk(worker, s.users, s.audits, s.clock, read.value);
    } else {
      AbortedOk(worker, s.users, s.audits, s.clock, t.clock);
    }
    hide WorkerOk, Read;
    LockFreeStepKeeps(s, t, w, t.workers[w]);
  }

  lemma StartApplyKeeps(s: System, w: WorkerId)
    requires Invariant(s) && w in s.workers && Ready(s, w, StartApply)
    ensures Invariant(Stepped(s, w, StartApply))
  {
    var worker := s.workers[w];
    var t := Stepped(s, w, StartApply);
    assert WorkerOk(worker, s.users, s.audits, s.clock);
    hide Invariant;
    assert ClaimUsers(worker.phase.claims) == worker.audience;
    assert WriteUsers([]) + ClaimUsers(worker.phase.claims) == worker.audience;
    LockFreeStepKeeps(s, t, w, t.workers[w]);
  }

  lemma AppliedOk(
    worker: Worker, users: map<UserId, User>, audits: map<Key, Audit>, clock: Instant, write: Write)
    requires WorkerOk(worker, users, audits, clock) && worker.phase.Applying? && worker.phase.pending != []
    requires write.user == worker.phase.pending[0].user && write.proposal == worker.phase.pending[0].proposal
    requires write.user in users && users[write.user] == write.before && AppliesTo(write)
    ensures WorkerOk(
      worker.(phase := Applying(worker.phase.pending[1..], worker.phase.writes + [write])), users, audits, clock)
  {
    hide AppliesTo;
    var pending, writes := worker.phase.pending, worker.phase.writes;
    assert ClaimUsers(pending) == [write.user] + ClaimUsers(pending[1..]);
    assert WriteUsers(writes + [write]) == WriteUsers(writes) + [write.user];
  }

  /** The one new lock is the wanted one, which nobody else holds. */
  lemma GrowingLocks(s: System, w: WorkerId, x: Worker)
    requires w in s.workers && s.workers[w].phase.Applying? && s.workers[w].phase.pending != [] && !Blocked(s, w)
    requires x.phase.Applying? && |x.phase.writes| == |s.workers[w].phase.writes| + 1
    requires x.phase.writes[..|s.workers[w].phase.writes|] == s.workers[w].phase.writes
    requires x.phase.writes[|s.workers[w].phase.writes|].user == s.workers[w].phase.pending[0].user
    ensures forall r :: Holds(x, r) && !Holds(s.workers[w], r) ==> !HeldByOther(s, w, r)
  {
    forall r | Holds(x, r)
      ensures Holds(s.workers[w], r) || Wanted(s, s.workers[w]) == Some(r)
    {
      var writes := WritesOf(s.workers[w].phase);
      var i :| 0 <= i < |x.phase.writes| && x.phase.writes[i].user == r.user;
      if i < |writes| {
        assert writes[i] == x.phase.writes[i];
        assert Holds(s.workers[w], UserLock(r.user));
      }
    }
  }

  /** One more buffered write, of the row the lock shows. */
  lemma LockedMoveKeeps(s: System, w: WorkerId, write: Write)
    requires Invariant(s) && w in s.workers && !Blocked(s, w)
    requires s.workers[w].phase.Applying? && s.workers[w].phase.pending != []
    requires write.user == s.workers[w].phase.pending[0].user && write.proposal == s.workers[w].phase.pending[0].proposal
    requires write.user in s.users && s.users[write.user] == write.before && AppliesTo(write)
    ensures Invariant(Move(s, w, Applying(s.workers[w].phase.pending[1..], s.workers[w].phase.writes + [write])))
  {
    var worker := s.workers[w];
    var x := worker.(phase := Applying(worker.phase.pending[1..], worker.phase.writes + [write]));
    assert WorkerOk(worker, s.users, s.audits, s.clock);
    hide Invariant, WorkerOk, AppliesTo;
    AppliedOk(worker, s.users, s.audits, s.clock, write);
    GrowingLocks(s, w, x);
    hide Blocked, Holds, HeldByOther;
    LocalStepKeeps(s, Move(s, w, x.phase), w, x);
  }

  lemma LockedKeeps(s: System, w: WorkerId, excess: Excess)
    requires Invariant(s) && w in s.workers && Ready(s, w, LockAndApply(excess))
    requires Locking(s, w, s.workers[w].phase.pending[0], excess).workers[w].phase.Applying?
    ensures Invariant(Locking(s, w, s.workers[w].phase.pending[0], excess))
  {
    var worker := s.workers[w];
    var claim := worker.phase.pending[0];
    hide Invariant, Apply, Blocked, OnFault, OnAbort;
    FaultIsQuiet(worker);
    var applied := Apply(s.users[claim.user], claim.proposal, excess).value;
    LockedMoveKeeps(s, w, Write(claim.user, s.users[claim.user], claim.proposal, excess, applied.user));
  }

  lemma ConflictKeeps(s: System, w: WorkerId, excess: Excess)
    requires Invariant(s) && w in s.workers && Ready(s, w, LockAndApply(excess))
    requires !Locking(s, w, s.workers[w].phase.pending[0], excess).workers[w].phase.Applying?
    ensures Invariant(Locking(s, w, s.workers[w].phase.pending[0], excess))
  {
    var worker := s.workers[w];
    var claim := worker.phase.pending[0];
    hide Invariant, Apply, Blocked, OnFault, OnAbort, Collide, Quiet, Succeeding;
    FaultIsQuiet(worker);
    if claim.user in s.users && Apply(s.users[claim.user], claim.proposal, excess).Rejected? {
      QuietMoveKeeps(s, w, OnAbort(worker));
    } else {
      CollideKeeps(s, w, OnFault(worker));
    }
  }

  lemma LockAndApplyKeeps(s: System, w: WorkerId, excess: Excess)
    requires Invariant(s) && w in s.workers && Ready(s, w, LockAndApply(excess))
    ensures Invariant(Stepped(s, w, LockAndApply(excess)))
  {
    hide Invariant, Locking;
    if Locking(s, w, s.workers[w].phase.pending[0], excess).workers[w].phase.Applying? {
      LockedKeeps(s, w, excess);
    } else {
      ConflictKeeps(s, w, excess);
    }
  }

  /** The same buffered writes in a later phase: at most the audit lock is new. */
  lemma SameWritesKeep(s: System, t: System, w: WorkerId, x: Worker)
    requires Invariant(s) && w in s.workers && LocalStep(s, t, w, x)
    requires WorkerOk(x, t.users, t.audits, t.clock)
    requires WritesOf(x.phase) == WritesOf(s.workers[w].phase)
    requires x.job.Webhook? && Holds(x, AuditLock(KeyOf(x.job))) ==> !HeldByOther(s, w, AuditLock(KeyOf(x.job)))
    ensures Invariant(t)
  {
    hide WorkerOk, Invariant, HeldByOther;
    forall r | Holds(x, r)
      ensures Holds(s.workers[w], r) || (x.job.Webhook? && r == AuditLock(KeyOf(x.job)))
    {
    }
    LocalStepKeeps(s, t, w, x);
  }

  lemma FinishApplyKeeps(s: System, w: WorkerId)
    requires Invariant(s) && w in s.workers && Ready(s, w, FinishApply)
    ensures Invariant(Stepped(s, w, FinishApply))
  {
    var worker := s.workers[w];
    var t := Stepped(s, w, FinishApply);
    assert WorkerOk(worker, s.users, s.audits, s.clock);
    hide Invariant, AppliesTo;
    assert WriteUsers(worker.phase.writes) == worker.audience;
    SameWritesKeep(s, t, w, t.workers[w]);
  }

  /** The phase after locking the audit row, when there is one to lock. */
  lemma SelectedOk(worker: Worker, users: map<UserId, User>, audits: map<Key, Audit>, clock: Instant)
    requires WorkerOk(worker, users, audits, clock) && worker.phase.Auditing? && worker.job.Webhook?
    ensures var key, phase := KeyOf(worker.job), worker.phase;
      var next :=
        if key !in audits then Inserting(phase.audit, phase.writes, phase.failing)
        else if Terminal(audits[key].result) then Committing(Keep, phase.writes, phase.failing)
        else Committing(Put(phase.audit, false), phase.writes, phase.failing);
      WorkerOk(worker.(phase := next), users, audits, clock)
  {
    hide WritesReady, Ascending, Acknowledged;
  }

  lemma SelectAuditKeeps(s: System, w: WorkerId)
    requires Invariant(s) && w in s.workers && Ready(s, w, SelectAudit)
    ensures Invariant(Stepped(s, w, SelectAudit))
  {
    var worker := s.workers[w];
    var t := Stepped(s, w, SelectAudit);
    assert WorkerOk(worker, s.users, s.audits, s.clock);
    hide Invariant, WorkerOk, HeldByOther;
    SelectedOk(worker, s.users, s.audits, s.clock);
    SameWritesKeep(s, t, w, t.workers[w]);
  }

  /** The phase after inserting an audit whose key is free. */
  lemma InsertedOk(worker: Worker, users: map<UserId, User>, audits: map<Key, Audit>, clock: Instant)
    requires WorkerOk(worker, users, audits, clock) && worker.phase.Inserting? && worker.job.Webhook?
    requires KeyOf(worker.job) !in audits
    ensures var phase := worker.phase;
      WorkerOk(worker.(phase := Committing(Put(phase.audit, true), phase.writes, phase.failing)), users, audits, clock)
  {
    hide WritesReady, Ascending, Acknowledged;
  }

  lemma InsertAuditKeeps(s: System, w: WorkerId)
    requires Invariant(s) && w in s.workers && Ready(s, w, InsertAudit)
    ensures Invariant(Stepped(s, w, InsertAudit))
  {
    var worker := s.workers[w];
    var t := Stepped(s, w, InsertAudit);
    assert WorkerOk(worker, s.users, s.audits, s.clock);
    hide Invariant, WorkerOk, HeldByOther;
    if KeyOf(worker.job) in s.audits {
      CollideKeeps(s, w, Colliding);
    } else {
      InsertedOk(worker, s.users, s.audits, s.clock);
      SameWritesKeep(s, t, w, t.workers[w]);
    }
  }

  /** A run that has not committed can collide. */
  lemma CollideKeeps(s: System, w: WorkerId, phase: Phase)
    requires Invariant(s) && w in s.workers && Quiet(phase) && !Succeeding(phase)
    requires s.workers[w].job.Solo? ==> phase.Done? || phase.Crashed?
    requires s.workers[w].phase.Applying? || s.workers[w].phase.Inserting?
    ensures Invariant(Collide(s, w, phase))
  {
    var worker := s.workers[w];
    assert WorkerOk(worker, s.users, s.audits, s.clock);
    hide Invariant, WorkerOk;
    BuildingIsUncommitted(worker, s.users, s.audits, s.clock);
    hide Quiet;
    QuietStepKeeps(s, Collide(s, w, phase), w, phase, true);
  }

  lemma BuildingIsUncommitted(worker: Worker, users: map<UserId, User>, audits: map<Key, Audit>, clock: Instant)
    requires WorkerOk(worker, users, audits, clock) && (worker.phase.Applying? || worker.phase.Inserting?)
    ensures !worker.committed
  {
  }

  lemma RecordErrorKeeps(s: System, w: WorkerId)
    requires Invariant(s) && w in s.workers && Ready(s, w, RecordError)
    ensures Invariant(Stepped(s, w, RecordError))
  {
    var t := Stepped(s, w, RecordError);
    assert WorkerOk(s.workers[w], s.users, s.audits, s.clock);
    hide Invariant;
    LockFreeStepKeeps(s, t, w, t.workers[w]);
  }

  /** Consulting the audit and releasing the lease. */
  lemma ReplyKeeps(s: System, w: WorkerId, step: Step)
    requires Invariant(s) && w in s.workers && Ready(s, w, step)
    requires step.Consult? || step.Release?
    ensures Invariant(Stepped(s, w, step))
  {
    var worker := s.workers[w];
    var t := Stepped(s, w, step);
    assert WorkerOk(worker, s.users, s.audits, s.clock);
    hide Invariant, WorkerOk;
    RepliesAcknowledged(worker, s.users, s.audits, s.clock);
    hide Acknowledged, TerminalAt;
    QuietStepKeeps(s, t, w, t.workers[w].phase, worker.collided);
  }

  lemma QuietMoveKeeps(s: System, w: WorkerId, phase: Phase)
    requires Invariant(s) && w in s.workers
    requires Quiet(phase) && !Succeeding(phase) && !phase.Colliding?
    requires s.workers[w].job.Solo? ==> phase.Done? || phase.Crashed?
    ensures Invariant(Move(s, w, phase))
  {
    var worker := s.workers[w];
    assert WorkerOk(worker, s.users, s.audits, s.clock);
    hide Invariant, WorkerOk;
    RepliesAcknowledged(worker, s.users, s.audits, s.clock);
    hide Acknowledged, Quiet;
    QuietStepKeeps(s, Move(s, w, phase), w, phase, worker.collided);
  }

  /** Failing, aborting and crashing. */
  lemma EndingKeeps(s: System, w: WorkerId, step: Step)
    requires Invariant(s) && w in s.workers && Ready(s, w, step)
    requires step.Fault? || step.Abort? || step.Crash?
    ensures Invariant(Stepped(s, w, step))
  {
    var worker := s.workers[w];
    FaultIsQuiet(worker);
    hide Invariant, OnFault, OnAbort, Move;
    match step
    case Fault => QuietMoveKeeps(s, w, OnFault(worker));
    case Abort => QuietMoveKeeps(s, w, OnAbort(worker));
    case Crash => QuietMoveKeeps(s, w, Crashed);
  }

  /** A reply of success, and a terminal audit consulted, acknowledge the event. */
  lemma RepliesAcknowledged(worker: Worker, users: map<UserId, User>, audits: map<Key, Audit>, clock: Instant)
    requires WorkerOk(worker, users, audits, clock)
    ensures worker.job.Webhook? && Succeeding(worker.phase) ==> Acknowledged(audits, worker.job)
    ensures worker.job.Webhook? && TerminalAt(audits, KeyOf(worker.job)) ==> Acknowledged(audits, worker.job)
    ensures worker.collided ==> !worker.committed
  {
    hide Covers, Fresh, AuditReady;
  }

  // -------------------------------------------------------------------- commits

  predicate DistinctUsers(writes: seq<Write>) {
    forall i, j :: 0 <= i < j < |writes| ==> writes[i].user != writes[j].user
  }

  lemma AfterWritesMeaning(users: map<UserId, User>, writes: seq<Write>)
    requires DistinctUsers(writes)
    ensures forall u :: u in AfterWrites(users, writes) <==> u in users || exists i :: 0 <= i < |writes| && writes[i].user == u
    ensures forall i :: 0 <= i < |writes| ==>
      writes[i].user in AfterWrites(users, writes) && AfterWrites(users, writes)[writes[i].user] == writes[i].after
    ensures forall u :: u in users && (forall i :: 0 <= i < |writes| ==> writes[i].user != u) ==>
      AfterWrites(users, writes)[u] == users[u]
  {
    forall u | forall i :: 0 <= i < |writes| ==> writes[i].user != u
      ensures u in AfterWrites(users, writes) <==> u in users
      ensures u in users ==> AfterWrites(users, writes)[u] == users[u]
    {
      Unwritten(users, writes, u);
    }
    forall i | 0 <= i < |writes|
      ensures writes[i].user in AfterWrites(users, writes) && AfterWrites(users, writes)[writes[i].user] == writes[i].after
    {
      Written(users, writes, i);
    }
  }

  lemma {:induction false} Unwritten(users: map<UserId, User>, writes: seq<Write>, u: UserId)
    requires forall i :: 0 <= i < |writes| ==> writes[i].user != u
    ensures u in AfterWrites(users, writes) <==> u in users
    ensures u in users ==> AfterWrites(users, writes)[u] == users[u]
  {
    if writes != [] {
      Unwritten(users, writes[..|writes| - 1], u);
    }
  }

  lemma {:induction false} Written(users: map<UserId, User>, writes: seq<Write>, i: nat)
    requires DistinctUsers(writes) && i < |writes|
    ensures writes[i].user in AfterWrites(users, writes)
    ensures AfterWrites(users, writes)[writes[i].user] == writes[i].after
  {
    if i < |writes| - 1 {
      Written(users, writes[..|writes| - 1], i);
    }
  }

  /** The writer's rows, each once and as locked, and an audit effect that keeps terminal rows. */
  lemma CommitterFacts(worker: Worker, users: map<UserId, User>, audits: map<Key, Audit>, clock: Instant)
    requires WorkerOk(worker, users, audits, clock) && worker.phase.Committing?
    ensures DistinctUsers(worker.phase.writes) && WritesReady(worker.phase.writes, users, clock)
    ensures AuditsEvolve(audits, AfterEffect(audits, worker.job, worker.phase.effect))
    ensures worker.phase.effect.Put? ==> worker.job.Webhook? && Holds(worker, AuditLock(KeyOf(worker.job)))
    ensures worker.phase.failing ==> worker.phase.writes == []
  {
    hide AppliesTo;
    var writes := worker.phase.writes;
    forall i, j | 0 <= i < j < |writes|
      ensures writes[i].user != writes[j].user
    {
      assert WriteUsers(writes)[i] == writes[i].user && WriteUsers(writes)[j] == writes[j].user;
    }
    assert |WriteUsers(writes)| == |writes|;
  }

  /** Rows and keys another worker holds are not touched by this worker's commit. */
  lemma OthersUntouched(s: System, w: WorkerId, v: WorkerId)
    requires Invariant(s) && w in s.workers && s.workers[w].phase.Committing? && v in s.workers && v != w
    ensures
      var worker, other := s.workers[w], s.workers[v];
      var users' := AfterWrites(s.users, worker.phase.writes);
      var audits' := AfterEffect(s.audits, worker.job, worker.phase.effect);
      && (forall u :: Holds(other, UserLock(u)) && u in s.users ==> u in users' && users'[u] == s.users[u])
      && (other.job.Webhook? && Holds(other, AuditLock(KeyOf(other.job))) ==>
            (KeyOf(other.job) in audits' <==> KeyOf(other.job) in s.audits)
            && (KeyOf(other.job) in s.audits ==> audits'[KeyOf(other.job)] == s.audits[KeyOf(other.job)]))
  {
    var worker := s.workers[w];
    CommitterFacts(worker, s.users, s.audits, s.clock);
    AfterWritesMeaning(s.users, worker.phase.writes);
    hide WorkerOk, AfterWrites;
    forall u | Holds(s.workers[v], UserLock(u))
      ensures !Holds(worker, UserLock(u))
    {
    }
    forall u | !Holds(worker, UserLock(u))
      ensures forall i :: 0 <= i < |worker.phase.writes| ==> worker.phase.writes[i].user != u
    {
    }
  }

  lemma CommittedWorkers(s: System, w: WorkerId, reported: bool)
    requires Invariant(s) && w in s.workers && s.workers[w].phase.Committing?
    ensures WorkersOk(Committed(s, w, reported))
  {
    var t := Committed(s, w, reported);
    CommitterFacts(s.workers[w], s.users, s.audits, s.clock);
    CommitterOk(s.workers[w], s.users, s.audits, t.users, t.audits, s.clock, reported);
    hide WorkerOk, AfterWrites, AfterEffect;
    forall v | v in t.workers
      ensures WorkerOk(t.workers[v], t.users, t.audits, t.clock)
    {
      if v != w {
        OthersUntouched(s, w, v);
        WorkerStable(s.workers[v], s.users, t.users, s.audits, t.audits, s.clock, t.clock);
      }
    }
  }

  /** The committer's own record after its commit: a reply of success has its audit. */
  lemma CommitterOk(
    worker: Worker, users: map<UserId, User>, audits: map<Key, Audit>,
    users': map<UserId, User>, audits': map<Key, Audit>, clock: Instant, reported: bool)
    requires WorkerOk(worker, users, audits, clock) && worker.phase.Committing?
    requires audits' == AfterEffect(audits, worker.job, worker.phase.effect)
    ensures
      var next :=
        if !reported then OnFault(worker)
        else if worker.job.Solo? then Done(true)
        else Releasing(!worker.phase.failing || worker.phase.effect.Keep?);
      WorkerOk(worker.(phase := next, committed := worker.committed || !worker.phase.failing), users', audits', clock)
  {
    hide AppliesTo;
  }

  lemma CommittedExclusive(s: System, w: WorkerId, reported: bool)
    requires Invariant(s) && w in s.workers && s.workers[w].phase.Committing?
    ensures Exclusive(Committed(s, w, reported).workers)
  {
    var t := Committed(s, w, reported);
    FaultIsQuiet(s.workers[w]);
    hide WorkerOk, OnFault, AfterWrites, AfterEffect;
    assert forall r :: !Holds(t.workers[w], r);
    forall v, u, r | v in t.workers && u in t.workers && Holds(t.workers[v], r) && Holds(t.workers[u], r)
      ensures v == u
    {
    }
  }

  /** Each committed row was verified later than the row it replaces, and before now. */
  lemma RowsAdvance(users: map<UserId, User>, writes: seq<Write>, clock: Instant)
    requires DistinctUsers(writes) && WritesReady(writes, users, clock) && UsersOk(users, clock)
    ensures UsersOk(AfterWrites(users, writes), clock)
    ensures forall u, t :: u in users && !Before(users[u].verifiedAt, t) ==>
      u in AfterWrites(users, writes) && !Before(AfterWrites(users, writes)[u].verifiedAt, t)
    ensures forall i :: 0 <= i < |writes| ==>
      && writes[i].user in AfterWrites(users, writes)
      && AfterWrites(users, writes)[writes[i].user].verifiedAt == Some(writes[i].proposal.verifiedAt)
      && writes[i].proposal.beforeVerifiedAt == users[writes[i].user].verifiedAt
  {
    AfterWritesMeaning(users, writes);
    forall i | 0 <= i < |writes|
      ensures writes[i].after.verifiedAt == Some(writes[i].proposal.verifiedAt)
      ensures writes[i].proposal.beforeVerifiedAt == users[writes[i].user].verifiedAt
    {
      AppliedBaseline(writes[i]);
    }
    hide AppliesTo, AfterWrites;
    forall u | u in AfterWrites(users, writes)
      ensures Before(AfterWrites(users, writes)[u].verifiedAt, clock)
      ensures u in users ==> forall t :: !Before(users[u].verifiedAt, t) ==> !Before(AfterWrites(users, writes)[u].verifiedAt, t)
    {
      if exists i :: 0 <= i < |writes| && writes[i].user == u {
        var i :| 0 <= i < |writes| && writes[i].user == u;
      }
    }
  }

  lemma CommittedEntries(s: System, w: WorkerId, reported: bool)
    requires Invariant(s) && w in s.workers && s.workers[w].phase.Committing?
    ensures var t := Committed(s, w, reported);
      && (forall i :: 0 <= i < |s.journal| ==> EntryOk(t, s.journal[i]))
      && (forall i :: 0 <= i < |s.workers[w].phase.writes| ==> EntryOk(t, Entry(w, s.workers[w].phase.writes[i])))
  {
    var writes := s.workers[w].phase.writes;
    CommitterFacts(s.workers[w], s.users, s.audits, s.clock);
    RowsAdvance(s.users, writes, s.clock);
    hide WorkerOk, AfterWrites, AfterEffect, OnFault, AppliesTo;
  }

  /** A new entry read what every earlier entry of its user left. */
  lemma CommittedOrder(s: System, w: WorkerId, i: nat, j: nat)
    requires Invariant(s) && w in s.workers && s.workers[w].phase.Committing?
    requires i < |s.journal| && j < |s.workers[w].phase.writes|
    requires s.journal[i].write.user == s.workers[w].phase.writes[j].user
    ensures !Before(s.workers[w].phase.writes[j].proposal.beforeVerifiedAt, s.journal[i].write.proposal.verifiedAt)
  {
    CommitterFacts(s.workers[w], s.users, s.audits, s.clock);
    AppliedBaseline(s.workers[w].phase.writes[j]);
    hide WorkerOk, AppliesTo;
  }

  lemma OrderExtends(journal: seq<Entry>, w: WorkerId, writes: seq<Write>)
    requires InOrder(journal) && DistinctUsers(writes)
    requires forall i, j :: 0 <= i < |journal| && 0 <= j < |writes| && journal[i].write.user == writes[j].user ==>
      !Before(writes[j].proposal.beforeVerifiedAt, journal[i].write.proposal.verifiedAt)
    ensures InOrder(journal + Entries(w, writes))
  {
    hide Before;
  }

  lemma CommittedJournal(s: System, w: WorkerId, reported: bool)
    requires Invariant(s) && w in s.workers && s.workers[w].phase.Committing?
    ensures JournalOk(Committed(s, w, reported))
  {
    var t := Committed(s, w, reported);
    var writes := s.workers[w].phase.writes;
    CommitterFacts(s.workers[w], s.users, s.audits, s.clock);
    CommittedEntries(s, w, reported);
    assert InOrder(s.journal);
    forall i, j | 0 <= i < |s.journal| && 0 <= j < |writes| && s.journal[i].write.user == writes[j].user
      ensures !Before(writes[j].proposal.beforeVerifiedAt, s.journal[i].write.proposal.verifiedAt)
    {
      CommittedOrder(s, w, i, j);
    }
    hide Invariant, WorkerOk, AfterWrites, AfterEffect, OnFault, EntryOk, InOrder, Before;
    OrderExtends(s.journal, w, writes);
  }

  lemma CommitKeeps(s: System, w: WorkerId, reported: bool)
    requires Invariant(s) && w in s.workers && Ready(s, w, Commit(reported))
    ensures Invariant(Stepped(s, w, Commit(reported)))
  {
    CommittedWorkers(s, w, reported);
    CommittedExclusive(s, w, reported);
    CommittedJournal(s, w, reported);
    CommitterFacts(s.workers[w], s.users, s.audits, s.clock);
    RowsAdvance(s.users, s.workers[w].phase.writes, s.clock);
    hide WorkersOk, Exclusive, JournalOk, WritesReady, AfterWrites, AfterEffect, Before;
  }

  // ------------------------------------------------------- the other actions

  lemma SpawnKeeps(s: System, w: WorkerId, job: Job)
    requires Invariant(s) && Enabled(s, Spawn(w, job))
    ensures Invariant(Next(s, Spawn(w, job)))
  {
    var t := Next(s, Spawn(w, job));
    LockFreeStepKeeps(s, t, w, t.workers[w]);
  }

  /** Another writer's update waits for the row lock, so no buffered update misses it. */
  lemma OutsideKeeps(s: System, u: UserId, row: User)
    requires Invariant(s) && Enabled(s, Outside(u, row))
    ensures Invariant(Next(s, Outside(u, row)))
  {
    var t := Next(s, Outside(u, row));
    hide WorkerOk, AppliesTo;
    forall w | w in t.workers
      ensures WorkerOk(t.workers[w], t.users, t.audits, t.clock)
    {
      WorkerStable(s.workers[w], s.users, t.users, s.audits, t.audits, s.clock, t.clock);
    }
    hide Holds;
  }

  lemma StepKeeps(s: System, w: WorkerId, step: Step)
    requires Invariant(s) && w in s.workers && Ready(s, w, step)
    ensures Invariant(Stepped(s, w, step))
  {
    hide Invariant, Stepped, Ready;
    match step
    case Arrive(lost) => ArriveKeeps(s, w, lost);
    case CheckOwn => CheckKeeps(s, w, step);
    case CheckLegacy => CheckKeeps(s, w, step);
    case Start => StartKeeps(s, w);
    case Baseline => BaselineKeeps(s, w);
    case Answer(snapshot, stamp) => AnswerKeeps(s, w, snapshot, stamp);
    case StartApply => StartApplyKeeps(s, w);
    case LockAndApply(excess) => LockAndApplyKeeps(s, w, excess);
    case FinishApply => FinishApplyKeeps(s, w);
    case SelectAudit => SelectAuditKeeps(s, w);
    case InsertAudit => InsertAuditKeeps(s, w);
    case Commit(reported) => CommitKeeps(s, w, reported);
    case RecordError => RecordErrorKeeps(s, w);
    case Consult => ReplyKeeps(s, w, step);
    case Release(_) => ReplyKeeps(s, w, step);
    case _ => EndingKeeps(s, w, step);
  }

  /** Every action keeps the invariant. */
  lemma ActionKeeps(s: System, a: Action)
    requires Invariant(s) && Enabled(s, a)
    ensures Invariant(Next(s, a))
  {
    match a
    case Spawn(w, job) => SpawnKeeps(s, w, job);
    case By(w, step) => StepKeeps(s, w, step);
    case Expire(key) =>
    case Outside(u, row) => OutsideKeeps(s, u, row);
  }

  /** The invariant holds in every reachable state. */
  lemma {:induction false} RunKeeps(s: System, actions: seq<Action>)
    requires Invariant(s) && Runs(s, actions)
    ensures Invariant(Last(s, actions))
    decreases |actions|
  {
    if actions != [] {
      ActionKeeps(s, actions[0]);
      RunKeeps(Next(s, actions[0]), actions[1..]);
    }
  }
}
