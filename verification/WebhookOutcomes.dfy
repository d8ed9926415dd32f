/** What one run of the webhook protocol achieves when nobody holds what it needs. */
module WebhookOutcomes {
  import opened Prelude
  import opened Evidence
  import opened Projection
  import opened ProjectionTheorems
  import opened WebhookProtocol
  import opened WebhookInvariant
  import opened WebhookSteps
  import opened WebhookTheorems
  import opened WebhookDuplicates

  // ------------------------------------------------------------- steps of one worker

  /** Beyond its first `n` actions the run consists of steps of the worker. */
  ghost predicate Continues(actions: seq<Action>, longer: seq<Action>, w: WorkerId) {
    && |actions| <= |longer| && longer[..|actions|] == actions
    && forall i :: |actions| <= i < |longer| ==> longer[i].By? && longer[i].w == w
  }

  /** The worker went on by itself, and no table or lease has changed. */
  ghost predicate Undisturbed(t: System, u: System, w: WorkerId) {
    Shape(t, u, w) && SameTables(t, u) && u.leases == t.leases
  }

  /** Nobody else holds a row lock. */
  ghost predicate Free(s: System, w: WorkerId) {
    forall v, r :: v in s.workers && v != w ==> !Holds(s.workers[v], r)
  }

  lemma FreeIsUnblocked(s: System, w: WorkerId)
    requires Free(s, w) && w in s.workers
    ensures !Blocked(s, w)
  {
    hide Holds, Wanted;
  }

  lemma StaysFree(t: System, u: System, w: WorkerId)
    requires Free(t, w) && Shape(t, u, w)
    ensures Free(u, w)
  {
    hide Holds;
  }

  /** One more step of the worker, other than taking or releasing the lease and committing. */
  lemma Takes(s: System, actions: seq<Action>, w: WorkerId, step: Step) returns (longer: seq<Action>)
    requires Runs(s, actions) && w in Last(s, actions).workers && Ready(Last(s, actions), w, step)
    requires !step.Arrive? && !step.Release? && !step.Commit?
    ensures Runs(s, longer) && Continues(actions, longer, w) && longer == actions + [By(w, step)]
    ensures Last(s, longer) == Stepped(Last(s, actions), w, step)
    ensures Undisturbed(Last(s, actions), Last(s, longer), w)
  {
    StepShape(Last(s, actions), w, step);
    LeaseFrame(Last(s, actions), By(w, step));
    hide Runs, Last, Ready, Stepped, Shape, SameTables;
    longer := RunExtends(s, actions, By(w, step));
  }

  lemma ContinuesOn(a: seq<Action>, b: seq<Action>, c: seq<Action>, w: WorkerId)
    requires Continues(a, b, w) && Continues(b, c, w)
    ensures Continues(a, c, w)
  {
    assert c[..|a|] == c[..|b|][..|a|];
    forall i | |a| <= i < |c|
      ensures c[i].By? && c[i].w == w
    {
      if i < |b| {
        assert c[i] == c[..|b|][i];
      }
    }
  }

  lemma UndisturbedOn(t: System, u: System, v: System, w: WorkerId)
    requires Undisturbed(t, u, w) && Undisturbed(u, v, w)
    ensures Undisturbed(t, v, w)
  {
  }

  // ------------------------------------------------------------- reading and applying

  type Answers = UserId -> Snapshot

  /** The user's row is live and its settings convert. */
  predicate Readable(users: map<UserId, User>, u: UserId) {
    u in users && !users[u].deleted && SubscriptionOf(users[u].settings).Accepted?
  }

  /** The claim was read from the user's row as it is. */
  ghost predicate ReadAs(users: map<UserId, User>, claim: Claim, answers: Answers) {
    Readable(users, claim.user)
    && exists at, stamp :: Read(users[claim.user], answers(claim.user), at, stamp) == Accepted(claim.proposal)
  }

  ghost predicate AllReadAs(users: map<UserId, User>, claims: seq<Claim>, answers: Answers) {
    forall i :: 0 <= i < |claims| ==> ReadAs(users, claims[i], answers)
  }

  /** What the write leaves shows the answer about its user. */
  ghost predicate WritesAnswer(users: map<UserId, User>, write: Write, answers: Answers) {
    write.user in users && write.before == users[write.user]
    && exists at :: Shows(write.after, answers(write.user), at)
  }

  ghost predicate AllWriteAnswers(users: map<UserId, User>, writes: seq<Write>, answers: Answers) {
    forall i :: 0 <= i < |writes| ==> WritesAnswer(users, writes[i], answers)
  }

  lemma OneRead(s: System, w: WorkerId, answers: Answers, stamp: string)
    requires w in s.workers && s.workers[w].phase.Reading? && s.workers[w].phase.todo != [] && s.clock < DATETIME_MAX
    requires Readable(s.users, s.workers[w].phase.todo[0])
    ensures Ready(s, w, Baseline)
    ensures var t, todo := Stepped(s, w, Baseline), s.workers[w].phase.todo;
      && w in t.workers && Ready(t, w, Answer(answers(todo[0]), stamp))
      && var u, claims := Stepped(t, w, Answer(answers(todo[0]), stamp)), s.workers[w].phase.claims;
         && w in u.workers && u.clock == s.clock + 1 && u.workers[w].audience == s.workers[w].audience
         && exists claim: Claim :: claim.user == todo[0] && ReadAs(s.users, claim, answers)
              && u.workers[w].phase == Reading(todo[1..], claims + [claim])
  {
    var todo := s.workers[w].phase.todo;
    var row := s.users[todo[0]];
    var p := Read(row, answers(todo[0]), s.clock, stamp).value;
    hide Read, Blocked;
    assert Read(row, answers(todo[0]), s.clock, stamp).Accepted? by {
      ReadAcceptedIff(row, answers(todo[0]), s.clock, stamp);
    }
    assert ReadAs(s.users, Claim(todo[0], p), answers);
  }

  /** The worker can read its next participants, of whom it has read some. */
  ghost predicate CanRead(s: System, w: WorkerId, users: map<UserId, User>, answers: Answers) {
    && w in s.workers && s.workers[w].phase.Reading?
    && s.clock + |s.workers[w].phase.todo| <= DATETIME_MAX
    && AllReadAs(users, s.workers[w].phase.claims, answers)
    && forall u :: u in s.workers[w].phase.todo ==> Readable(users, u)
  }

  /** Those read and those left to read. */
  function Participants(phase: Phase): seq<UserId>
    requires phase.Reading?
  {
    ClaimUsers(phase.claims) + phase.todo
  }

  lemma OneClaimMore(users: map<UserId, User>, claims: seq<Claim>, claim: Claim, todo: seq<UserId>, answers: Answers)
    requires AllReadAs(users, claims, answers) && ReadAs(users, claim, answers) && todo != [] && claim.user == todo[0]
    ensures AllReadAs(users, claims + [claim], answers)
    ensures ClaimUsers(claims + [claim]) + todo[1..] == ClaimUsers(claims) + todo
  {
    hide ReadAs;
    assert ClaimUsers(claims + [claim]) == ClaimUsers(claims) + [todo[0]];
    assert todo == [todo[0]] + todo[1..];
  }

  lemma ReadsOne(s: System, actions: seq<Action>, w: WorkerId, answers: Answers, stamp: string)
    returns (longer: seq<Action>)
    requires Runs(s, actions) && CanRead(Last(s, actions), w, Last(s, actions).users, answers)
    requires Last(s, actions).workers[w].phase.todo != []
    ensures Runs(s, longer) && Continues(actions, longer, w)
    ensures var t, u := Last(s, actions), Last(s, longer);
      && Undisturbed(t, u, w) && CanRead(u, w, t.users, answers) && u.workers[w].audience == t.workers[w].audience
      && |u.workers[w].phase.todo| == |t.workers[w].phase.todo| - 1
      && Participants(u.workers[w].phase) == Participants(t.workers[w].phase)
  {
    var t := Last(s, actions);
    var todo, claims := t.workers[w].phase.todo, t.workers[w].phase.claims;
    OneRead(t, w, answers, stamp);
    hide Runs, Last, Ready, Stepped, Undisturbed, Continues, Readable, ReadAs, AllReadAs, ClaimUsers;
    var first := Takes(s, actions, w, Baseline);
    longer := Takes(s, first, w, Answer(answers(todo[0]), stamp));
    ContinuesOn(actions, first, longer, w);
    UndisturbedOn(t, Last(s, first), Last(s, longer), w);
    var claim: Claim :| claim.user == todo[0] && ReadAs(t.users, claim, answers)
      && Last(s, longer).workers[w].phase == Reading(todo[1..], claims + [claim]);
    OneClaimMore(t.users, claims, claim, todo, answers);
  }

  /** The worker reads a proposal for each participant that is left. */
  lemma {:induction false} ReadsAll(s: System, actions: seq<Action>, w: WorkerId, answers: Answers, stamp: string)
    returns (longer: seq<Action>)
    requires Runs(s, actions) && CanRead(Last(s, actions), w, Last(s, actions).users, answers)
    ensures Runs(s, longer) && Continues(actions, longer, w)
    ensures var t, u := Last(s, actions), Last(s, longer);
      && Undisturbed(t, u, w) && CanRead(u, w, t.users, answers) && u.workers[w].audience == t.workers[w].audience
      && u.workers[w].phase.todo == []
      && Participants(u.workers[w].phase) == Participants(t.workers[w].phase)
    decreases |Last(s, actions).workers[w].phase.todo|
  {
    var t := Last(s, actions);
    if t.workers[w].phase.todo == [] {
      longer := actions;
    } else {
      var first := ReadsOne(s, actions, w, answers, stamp);
      assert Last(s, first).users == t.users;
      hide Runs, Last, Undisturbed, Continues, Participants, AllReadAs, Readable;
      longer := ReadsAll(s, first, w, answers, stamp);
      ContinuesOn(actions, first, longer, w);
      UndisturbedOn(t, Last(s, first), Last(s, longer), w);
    }
  }

  lemma UndisturbedTables(t: System, u: System, w: WorkerId)
    requires Undisturbed(t, u, w)
    ensures u.users == t.users && u.audits == t.audits && u.leases == t.leases
    ensures w in t.workers && w in u.workers && u.workers[w].job == t.workers[w].job
    ensures Free(t, w) ==> Free(u, w)
  {
    if Free(t, w) {
      StaysFree(t, u, w);
    }
  }

  /** The worker has applied some of its proposals and can apply the others. */
  ghost predicate CanApply(s: System, w: WorkerId, users: map<UserId, User>, answers: Answers) {
    && w in s.workers && s.workers[w].phase.Applying?
    && AllReadAs(users, s.workers[w].phase.pending, answers)
    && AllWriteAnswers(users, s.workers[w].phase.writes, answers)
  }

  /** Those applied and those left to apply. */
  function Appliers(phase: Phase): seq<UserId>
    requires phase.Applying?
  {
    WriteUsers(phase.writes) + ClaimUsers(phase.pending)
  }

  /** A proposal read from the row as it is applies, and what it leaves shows the answer. */
  lemma ClaimApplies(users: map<UserId, User>, claim: Claim, answers: Answers, excess: Excess)
    requires ReadAs(users, claim, answers) && Plain(answers(claim.user))
    ensures Apply(users[claim.user], claim.proposal, excess).Accepted?
    ensures Apply(users[claim.user], claim.proposal, excess).value.Applied?
    ensures var after := Apply(users[claim.user], claim.proposal, excess).value.user;
      WritesAnswer(users, Write(claim.user, users[claim.user], claim.proposal, excess, after), answers)
  {
    var row, snapshot := users[claim.user], answers(claim.user);
    var at, stamp :| Read(row, snapshot, at, stamp) == Accepted(claim.proposal);
    FreshProposalApplies(row, snapshot, at, stamp, excess);
    assert AfterAll(row, []) == row;
    AppliedRowShowsSnapshot(row, [], snapshot, at, stamp, excess);
    hide Read, Shows, Plain, Projected, SubscriptionOf, HasRemoveAds;
  }

  lemma OneApply(s: System, w: WorkerId, answers: Answers, excess: Excess)
    requires CanApply(s, w, s.users, answers) && s.workers[w].phase.pending != [] && Free(s, w)
    requires forall u :: Plain(answers(u))
    ensures Ready(s, w, LockAndApply(excess))
    ensures var u, phase := Stepped(s, w, LockAndApply(excess)), s.workers[w].phase;
      && w in u.workers && u.workers[w].audience == s.workers[w].audience
      && exists write: Write :: write.user == phase.pending[0].user && WritesAnswer(s.users, write, answers)
           && u.workers[w].phase == Applying(phase.pending[1..], phase.writes + [write])
  {
    FreeIsUnblocked(s, w);
    var claim := s.workers[w].phase.pending[0];
    assert ReadAs(s.users, claim, answers);
    ClaimApplies(s.users, claim, answers, excess);
    hide Apply, WritesAnswer, Blocked, Free, Plain;
    var after := Apply(s.users[claim.user], claim.proposal, excess).value.user;
    assert WritesAnswer(s.users, Write(claim.user, s.users[claim.user], claim.proposal, excess, after), answers);
  }

  lemma OneWriteMore(
    users: map<UserId, User>, writes: seq<Write>, write: Write, pending: seq<Claim>, answers: Answers)
    requires AllWriteAnswers(users, writes, answers) && WritesAnswer(users, write, answers)
    requires pending != [] && write.user == pending[0].user && AllReadAs(users, pending, answers)
    ensures AllWriteAnswers(users, writes + [write], answers) && AllReadAs(users, pending[1..], answers)
    ensures WriteUsers(writes + [write]) + ClaimUsers(pending[1..]) == WriteUsers(writes) + ClaimUsers(pending)
  {
    hide ReadAs, WritesAnswer;
    assert WriteUsers(writes + [write]) == WriteUsers(writes) + [write.user];
    assert ClaimUsers(pending) == [write.user] + ClaimUsers(pending[1..]);
  }

  lemma AppliesOne(s: System, actions: seq<Action>, w: WorkerId, answers: Answers, excess: UserId -> Excess)
    returns (longer: seq<Action>)
    requires Runs(s, actions) && CanApply(Last(s, actions), w, Last(s, actions).users, answers)
    requires Last(s, actions).workers[w].phase.pending != [] && Free(Last(s, actions), w)
    requires forall u :: Plain(answers(u))
    ensures Runs(s, longer) && Continues(actions, longer, w)
    ensures var t, u := Last(s, actions), Last(s, longer);
      && Undisturbed(t, u, w) && CanApply(u, w, t.users, answers) && u.workers[w].audience == t.workers[w].audience
      && |u.workers[w].phase.pending| == |t.workers[w].phase.pending| - 1
      && Appliers(u.workers[w].phase) == Appliers(t.workers[w].phase)
  {
    var t := Last(s, actions);
    var pending, writes := t.workers[w].phase.pending, t.workers[w].phase.writes;
    var step := LockAndApply(excess(pending[0].user));
    OneApply(t, w, answers, excess(pending[0].user));
    hide Runs, Last, Ready, Stepped, Undisturbed, Continues, AllReadAs, AllWriteAnswers, WritesAnswer, ClaimUsers, WriteUsers, Plain, Free;
    longer := Takes(s, actions, w, step);
    var write: Write :| write.user == pending[0].user && WritesAnswer(t.users, write, answers)
      && Last(s, longer).workers[w].phase == Applying(pending[1..], writes + [write]);
    OneWriteMore(t.users, writes, write, pending, answers);
  }

  /** The worker applies each proposal that is left. */
  lemma {:induction false} AppliesAll(
    s: System, actions: seq<Action>, w: WorkerId, answers: Answers, excess: UserId -> Excess) returns (longer: seq<Action>)
    requires Runs(s, actions) && CanApply(Last(s, actions), w, Last(s, actions).users, answers)
    requires Free(Last(s, actions), w) && forall u :: Plain(answers(u))
    ensures Runs(s, longer) && Continues(actions, longer, w)
    ensures var t, u := Last(s, actions), Last(s, longer);
      && Undisturbed(t, u, w) && CanApply(u, w, t.users, answers) && u.workers[w].audience == t.workers[w].audience
      && u.workers[w].phase.pending == []
      && Appliers(u.workers[w].phase) == Appliers(t.workers[w].phase)
    decreases |Last(s, actions).workers[w].phase.pending|
  {
    var t := Last(s, actions);
    if t.workers[w].phase.pending == [] {
      longer := actions;
    } else {
      var first := AppliesOne(s, actions, w, answers, excess);
      UndisturbedTables(t, Last(s, first), w);
      hide Runs, Last, Undisturbed, Continues, Appliers, AllReadAs, AllWriteAnswers, Plain, Free;
      longer := AppliesAll(s, first, w, answers, excess);
      ContinuesOn(actions, first, longer, w);
      UndisturbedOn(t, Last(s, first), Last(s, longer), w);
    }
  }

  // ------------------------------------------------------------- commit and reply

  /** The lease store after the worker has released what it holds of the key. */
  function Released(leases: map<Key, WorkerId>, key: Key, w: WorkerId): map<Key, WorkerId> {
    if key in leases && leases[key] == w then leases - {key} else leases
  }

  lemma AuditSelected(s: System, w: WorkerId)
    requires w in s.workers && s.workers[w].phase.Auditing? && s.workers[w].job.Webhook? && Free(s, w)
    ensures Ready(s, w, SelectAudit)
    ensures var t, key, phase := Stepped(s, w, SelectAudit), KeyOf(s.workers[w].job), s.workers[w].phase;
      && w in t.workers
      && t.workers[w].phase ==
           (if key !in s.audits then Inserting(phase.audit, phase.writes, phase.failing)
            else if s.audits[key].result == Error then Committing(Put(phase.audit, false), phase.writes, phase.failing)
            else Committing(Keep, phase.writes, phase.failing))
  {
    FreeIsUnblocked(s, w);
    hide Blocked, Free;
  }

  lemma AuditInserted(s: System, w: WorkerId)
    requires w in s.workers && s.workers[w].phase.Inserting? && s.workers[w].job.Webhook? && Free(s, w)
    requires KeyOf(s.workers[w].job) !in s.audits
    ensures Ready(s, w, InsertAudit)
    ensures var t, phase := Stepped(s, w, InsertAudit), s.workers[w].phase;
      && w in t.workers && t.workers[w].phase == Committing(Put(phase.audit, true), phase.writes, phase.failing)
  {
    FreeIsUnblocked(s, w);
    hide Blocked, Free;
  }

  lemma CommitAnswered(s: System, w: WorkerId)
    requires w in s.workers && s.workers[w].phase.Committing?
    ensures Ready(s, w, Commit(true))
    ensures var t, worker := Stepped(s, w, Commit(true)), s.workers[w];
      && w in t.workers && t.leases == s.leases
      && t.users == AfterWrites(s.users, worker.phase.writes)
      && t.audits == AfterEffect(s.audits, worker.job, worker.phase.effect)
      && t.workers[w].phase ==
           (if worker.job.Solo? then Done(true) else Releasing(!worker.phase.failing || worker.phase.effect.Keep?))
  {
    hide AfterWrites, AfterEffect, Blocked;
  }

  lemma LeaseReleased(s: System, w: WorkerId)
    requires w in s.workers && s.workers[w].phase.Releasing? && s.workers[w].job.Webhook?
    ensures Ready(s, w, Release(true))
    ensures var t, worker := Stepped(s, w, Release(true)), s.workers[w];
      && Shape(s, t, w) && SameTables(s, t)
      && t.leases == Released(s.leases, KeyOf(worker.job), w)
      && t.workers[w].phase == Done(worker.phase.reply)
  {
    hide Blocked;
  }

  /** Up to the commit: the audit in hand replaces one that is absent or an error. */
  lemma ReachesCommit(s: System, actions: seq<Action>, w: WorkerId, key: Key) returns (longer: seq<Action>)
    requires Runs(s, actions) && w in Last(s, actions).workers && Free(Last(s, actions), w)
    requires Last(s, actions).workers[w].phase.Auditing? && Identifies(key, Last(s, actions).workers[w].job)
    ensures Runs(s, longer) && Continues(actions, longer, w)
    ensures var t, u := Last(s, actions), Last(s, longer);
      && Undisturbed(t, u, w) && u.workers[w].phase.Committing?
      && u.workers[w].phase.writes == t.workers[w].phase.writes
      && u.workers[w].phase.failing == t.workers[w].phase.failing
      && (if Concluded(t.audits, key) then u.workers[w].phase.effect == Keep
          else u.workers[w].phase.effect.Put? && u.workers[w].phase.effect.audit == t.workers[w].phase.audit)
  {
    var t := Last(s, actions);
    assert KeyOf(t.workers[w].job) == key;
    AuditSelected(t, w);
    hide Runs, Last, Ready, Stepped, Undisturbed, Continues, Free, KeyOf, Identifies;
    longer := Takes(s, actions, w, SelectAudit);
    UndisturbedTables(t, Last(s, longer), w);
    if key !in t.audits {
      var first := longer;
      AuditInserted(Last(s, first), w);
      longer := Takes(s, first, w, InsertAudit);
      UndisturbedOn(t, Last(s, first), Last(s, longer), w);
      ContinuesOn(actions, first, longer, w);
    }
  }

  lemma CommitsNow(s: System, actions: seq<Action>, w: WorkerId) returns (longer: seq<Action>)
    requires Runs(s, actions) && w in Last(s, actions).workers && Last(s, actions).workers[w].phase.Committing?
    ensures Runs(s, longer) && Continues(actions, longer, w)
    ensures var t, u, worker := Last(s, actions), Last(s, longer), Last(s, actions).workers[w];
      && Shape(t, u, w) && u.leases == t.leases
      && u.users == AfterWrites(t.users, worker.phase.writes)
      && u.audits == AfterEffect(t.audits, worker.job, worker.phase.effect)
      && u.workers[w].phase ==
           (if worker.job.Solo? then Done(true) else Releasing(!worker.phase.failing || worker.phase.effect.Keep?))
  {
    CommitAnswered(Last(s, actions), w);
    StepShape(Last(s, actions), w, Commit(true));
    hide Runs, Last, Ready, Stepped, Shape;
    longer := RunExtends(s, actions, By(w, Commit(true)));
  }

  lemma ReleasesNow(s: System, actions: seq<Action>, w: WorkerId) returns (longer: seq<Action>)
    requires Runs(s, actions) && w in Last(s, actions).workers
    requires Last(s, actions).workers[w].phase.Releasing? && Last(s, actions).workers[w].job.Webhook?
    ensures Runs(s, longer) && Continues(actions, longer, w)
    ensures var t, u := Last(s, actions), Last(s, longer);
      && Shape(t, u, w) && SameTables(t, u)
      && u.leases == Released(t.leases, KeyOf(t.workers[w].job), w)
      && u.workers[w].phase == Done(t.workers[w].phase.reply)
  {
    LeaseReleased(Last(s, actions), w);
    hide Runs, Last, Ready, Stepped, Shape, SameTables, Released;
    longer := RunExtends(s, actions, By(w, Release(true)));
  }

  /** What the end of a run leaves: the writes, the audit unless one stood, no lease, and the reply. */
  ghost predicate Concludes(t: System, u: System, w: WorkerId, key: Key, audit: Audit, writes: seq<Write>) {
    && Shape(t, u, w)
    && u.users == AfterWrites(t.users, writes) && u.leases == Released(t.leases, key, w)
    && if Concluded(t.audits, key) then u.audits == t.audits && u.workers[w].phase == Done(true)
       else u.audits == t.audits[key := audit] && u.workers[w].phase == Done(audit.result != Error)
  }

  /** A worker with its audit in hand records it, commits, releases and replies. */
  lemma RecordsAudit(s: System, actions: seq<Action>, w: WorkerId, key: Key) returns (longer: seq<Action>)
    requires Runs(s, actions) && w in Last(s, actions).workers && Free(Last(s, actions), w)
    requires var worker := Last(s, actions).workers[w];
      && worker.phase.Auditing? && Identifies(key, worker.job)
      && (worker.phase.failing <==> worker.phase.audit.result == Error)
    ensures Runs(s, longer) && Continues(actions, longer, w)
    ensures var t, phase := Last(s, actions), Last(s, actions).workers[w].phase;
      Concludes(t, Last(s, longer), w, key, phase.audit, phase.writes)
  {
    var t := Last(s, actions);
    assert KeyOf(t.workers[w].job) == key && t.workers[w].job.Webhook?;
    var phase := t.workers[w].phase;
    var first := ReachesCommit(s, actions, w, key);
    UndisturbedTables(t, Last(s, first), w);
    var second := CommitsNow(s, first, w);
    hide Runs, Last, Continues, Free, Released, AfterWrites, KeyOf, Identifies, Concluded;
    longer := ReleasesNow(s, second, w);
    ContinuesOn(actions, first, second, w);
    ContinuesOn(actions, second, longer, w);
  }

  // ------------------------------------------------------------- failures are recorded

  /** The worker got past its audit check and is not recording an error yet. */
  predicate AtWork(worker: Worker) {
    worker.job.Webhook? &&
    match worker.phase
    case Cleared => true
    case Reading(_, _) => true
    case Fetching(_, _, _) => true
    case Applying(_, _) => true
    case Auditing(_, _, failing) => !failing
    case Inserting(_, _, failing) => !failing
    case Committing(_, _, failing) => !failing
    case _ => false
  }

  lemma FaultFails(s: System, w: WorkerId)
    requires w in s.workers && AtWork(s.workers[w])
    ensures Ready(s, w, Fault)
    ensures var t := Stepped(s, w, Fault); w in t.workers && t.workers[w].phase == Failing
  {
    hide Blocked;
  }

  lemma RecordingStarts(s: System, w: WorkerId)
    requires w in s.workers && s.workers[w].phase.Failing? && s.workers[w].job.Webhook?
    ensures Ready(s, w, RecordError)
    ensures var t := Stepped(s, w, RecordError);
      w in t.workers && t.workers[w].phase == Auditing(Audit(Error, s.workers[w].job.eventId), [], true)
  {
    hide Blocked;
  }

  /**
   A fault is not lost: whenever an exception meets a worker past its audit check, and nobody else
   holds a row lock, the worker by itself records an error for its event, without any row update,
   releases its lease and answers failure; if the event is concluded meanwhile, it leaves that
   audit and answers success.
   */
  lemma FailureIsRecorded(s: System, actions: seq<Action>, w: WorkerId, key: Key) returns (longer: seq<Action>)
    requires Runs(s, actions) && w in Last(s, actions).workers && Free(Last(s, actions), w)
    requires AtWork(Last(s, actions).workers[w]) && Identifies(key, Last(s, actions).workers[w].job)
    ensures Runs(s, longer) && Continues(actions + [By(w, Fault)], longer, w)
    ensures var t, u := Last(s, actions), Last(s, longer);
      && w in u.workers && u.users == t.users && u.leases == Released(t.leases, key, w)
      && (if Concluded(t.audits, key) then u.audits == t.audits && u.workers[w].phase == Done(true)
          else u.audits == t.audits[key := Audit(Error, t.workers[w].job.eventId)] && u.workers[w].phase == Done(false))
  {
    var t := Last(s, actions);
    FaultFails(t, w);
    assert AfterWrites(t.users, []) == t.users;
    hide Runs, Last, Ready, Stepped, Undisturbed, Continues, Free, Released, AfterWrites, Identifies, Concluded, AtWork;
    var failed := Takes(s, actions, w, Fault);
    UndisturbedTables(t, Last(s, failed), w);
    RecordingStarts(Last(s, failed), w);
    var recording := Takes(s, failed, w, RecordError);
    UndisturbedTables(Last(s, failed), Last(s, recording), w);
    longer := RecordsAudit(s, recording, w, key);
    ContinuesOn(failed, recording, longer, w);
  }

  /** The row still has the columns the proposal was read with. */
  predicate Unaltered(row: User, p: Proposal) {
    && !row.deleted && row.status == p.beforeStatus && row.expiresAt == p.beforeExpiresAt
    && row.verifiedAt == p.beforeVerifiedAt
  }

  /**
   What stops a webhook at work: a participant's row that is gone when it is to be read, or gone
   or changed when it is locked, makes it record an error; settings that do not convert make it
   give up without one.
   */
  lemma WhatStopsAWebhook(s: System, w: WorkerId, step: Step)
    requires w in s.workers && s.workers[w].job.Webhook? && Ready(s, w, step)
    ensures w in Stepped(s, w, step).workers
    ensures var phase, after := s.workers[w].phase, Stepped(s, w, step).workers[w];
      match step
      case Baseline =>
        (phase.todo[0] !in s.users || s.users[phase.todo[0]].deleted) ==> after.phase == Failing
      case Answer(_, _) =>
        SubscriptionOf(phase.baseline.settings).Rejected? ==> after.phase == Releasing(false)
      case LockAndApply(_) =>
        var claim := phase.pending[0];
        if claim.user !in s.users || !Unaltered(s.users[claim.user], claim.proposal)
        then after.phase == Failing && after.collided
        else var held := SubscriptionOf(s.users[claim.user].settings);
          && (held.Rejected? ==> after.phase == Releasing(false))
          && (held.Accepted? && (held.value != claim.proposal.beforeSubscription
                                 || HasRemoveAds(s.users[claim.user].settings) != claim.proposal.beforeRemoveAds)
              ==> after.phase == Failing && after.collided)
      case _ => true
  {
    StepShape(s, w, step);
    hide Matches, WithRemoveAds, WithSnapshot, HasRemoveAds, Blocked, OwnAudit, LegacyAudit, Audience, Arriving, Committed;
  }

  /** A run whose insert collided answers by what the other run has concluded. */
  lemma CollisionReplies(s: System, w: WorkerId, key: Key)
    requires w in s.workers && s.workers[w].phase.Colliding? && Identifies(key, s.workers[w].job)
    ensures Ready(s, w, Consult)
    ensures var t := Stepped(s, w, Consult);
      w in t.workers && t.workers[w].phase == Releasing(Concluded(s.audits, key))
  {
    hide Blocked;
  }

  // ------------------------------------------------------------- a whole event

  /** The worker reads and applies all its participants. */
  lemma ReadsAndApplies(
    s: System, actions: seq<Action>, w: WorkerId, answers: Answers, stamp: string, excess: UserId -> Excess)
    returns (longer: seq<Action>)
    requires Runs(s, actions) && CanRead(Last(s, actions), w, Last(s, actions).users, answers)
    requires Last(s, actions).workers[w].phase.claims == [] && Free(Last(s, actions), w) && forall u :: Plain(answers(u))
    ensures Runs(s, longer) && Continues(actions, longer, w)
    ensures var t, u := Last(s, actions), Last(s, longer);
      && Undisturbed(t, u, w)
      && u.workers[w].phase.Applying? && u.workers[w].phase.pending == []
      && WriteUsers(u.workers[w].phase.writes) == t.workers[w].phase.todo
      && AllWriteAnswers(t.users, u.workers[w].phase.writes, answers)
  {
    var t := Last(s, actions);
    assert ClaimUsers([]) == [] && forall ids: seq<UserId> :: [] + ids == ids && ids + [] == ids;
    var first := ReadsAll(s, actions, w, answers, stamp);
    UndisturbedTables(t, Last(s, first), w);
    var claims := Last(s, first).workers[w].phase.claims;
    var second := ApplyStarts(s, first, w);
    UndisturbedTables(Last(s, first), Last(s, second), w);
    assert AllWriteAnswers(t.users, [], answers) && WriteUsers([]) == [];
    longer := AppliesAll(s, second, w, answers, excess);
    hide Runs, Last, Continues, Undisturbed, Free, AllWriteAnswers, AllReadAs;
    UndisturbedOn(t, Last(s, first), Last(s, second), w);
    UndisturbedOn(t, Last(s, second), Last(s, longer), w);
    ContinuesOn(actions, first, second, w);
    ContinuesOn(actions, second, longer, w);
  }

  lemma ApplyStarts(s: System, actions: seq<Action>, w: WorkerId) returns (longer: seq<Action>)
    requires Runs(s, actions) && w in Last(s, actions).workers
    requires Last(s, actions).workers[w].phase.Reading? && Last(s, actions).workers[w].phase.todo == []
    ensures Runs(s, longer) && Continues(actions, longer, w) && Undisturbed(Last(s, actions), Last(s, longer), w)
    ensures Last(s, longer).workers[w].phase == Applying(Last(s, actions).workers[w].phase.claims, [])
  {
    hide Runs, Last, Blocked;
    longer := Takes(s, actions, w, StartApply);
  }

  /** The event names the user, reconciles, and finds the user's row. */
  predicate Concerns(job: Job, users: map<UserId, User>, u: UserId) {
    && (job.Webhook? ==> job.mutating && u in job.named && u in users && !users[u].deleted)
    && (job.Solo? ==> u == job.user)
  }

  lemma StartChooses(s: System, w: WorkerId)
    requires w in s.workers
    requires if s.workers[w].job.Webhook? then s.workers[w].phase.Cleared? && Ascending(s.workers[w].job.named)
             else s.workers[w].phase.Arrived?
    ensures Ready(s, w, Start)
    ensures var t, job := Stepped(s, w, Start), s.workers[w].job;
      && w in t.workers && t.clock == s.clock
      && if job.Webhook? && forall u :: !Concerns(job, s.users, u)
         then t.workers[w].phase == Auditing(Audit(Skipped, job.eventId), [], false)
         else && t.workers[w].phase.Reading? && t.workers[w].phase.claims == []
              && Ascending(t.workers[w].phase.todo)
              && |t.workers[w].phase.todo| <= (if job.Webhook? then |job.named| else 1)
              && forall u :: u in t.workers[w].phase.todo <==> Concerns(job, s.users, u)
  {
    hide Blocked;
    var job := s.workers[w].job;
    if job.Webhook? {
      ExistingAscends(s.users, job.named);
      ExistingIsShort(s.users, job.named);
      Inhabited(Existing(s.users, job.named));
    }
    hide Existing;
    assert forall u :: u in Audience(s.users, job) <==> Concerns(job, s.users, u);
  }

  /** What the rows become: those of the concerned users show the answers, all others stay. */
  ghost predicate RowsShow(job: Job, users: map<UserId, User>, users': map<UserId, User>, answers: Answers) {
    && (forall u :: u in users' <==> u in users)
    && (forall u :: Concerns(job, users, u) ==> u in users' && exists at :: Shows(users'[u], answers(u), at))
    && forall u :: u in users && !Concerns(job, users, u) ==> users'[u] == users[u]
  }

  lemma WrittenShows(users: map<UserId, User>, writes: seq<Write>, u: UserId, answers: Answers)
    requires AllWriteAnswers(users, writes, answers) && DistinctUsers(writes) && u in WriteUsers(writes)
    ensures u in users && u in AfterWrites(users, writes) && exists at :: Shows(AfterWrites(users, writes)[u], answers(u), at)
  {
    var i :| 0 <= i < |writes| && WriteUsers(writes)[i] == u;
    assert WritesAnswer(users, writes[i], answers);
    WebhookSteps.Written(users, writes, i);
    hide AfterWrites, Shows;
  }

  lemma UnwrittenStays(users: map<UserId, User>, writes: seq<Write>, u: UserId)
    requires u !in WriteUsers(writes)
    ensures u in AfterWrites(users, writes) <==> u in users
    ensures u in users ==> AfterWrites(users, writes)[u] == users[u]
  {
    forall i | 0 <= i < |writes|
      ensures writes[i].user != u
    {
      assert WriteUsers(writes)[i] in WriteUsers(writes);
    }
    Unwritten(users, writes, u);
  }

  lemma WritesShow(job: Job, users: map<UserId, User>, writes: seq<Write>, answers: Answers)
    requires AllWriteAnswers(users, writes, answers) && Ascending(WriteUsers(writes))
    requires forall u :: u in WriteUsers(writes) <==> Concerns(job, users, u)
    ensures RowsShow(job, users, AfterWrites(users, writes), answers)
  {
    assert DistinctUsers(writes) by {
      assert forall i :: 0 <= i < |writes| ==> WriteUsers(writes)[i] == writes[i].user;
    }
    hide AfterWrites, Shows, Concerns, AllWriteAnswers, WriteUsers, Ascending, DistinctUsers;
    forall u
      ensures u in AfterWrites(users, writes) <==> u in users
      ensures Concerns(job, users, u) ==>
        u in AfterWrites(users, writes) && exists at :: Shows(AfterWrites(users, writes)[u], answers(u), at)
      ensures u in users && !Concerns(job, users, u) ==> AfterWrites(users, writes)[u] == users[u]
    {
      if u in WriteUsers(writes) {
        WrittenShows(users, writes, u, answers);
      } else {
        UnwrittenStays(users, writes, u);
      }
    }
  }

  /** All that a worker needs to handle its job alone. */
  ghost predicate Ample(s: System, w: WorkerId, job: Job, answers: Answers) {
    && Free(s, w) && (forall u :: Plain(answers(u)))
    && (job.Webhook? ==> Ascending(job.named))
    && s.clock + (if job.Webhook? then |job.named| else 1) <= DATETIME_MAX
    && forall u :: Concerns(job, s.users, u) ==> Readable(s.users, u)
  }

  lemma {:induction false} ExistingIsShort(users: map<UserId, User>, ids: seq<UserId>)
    ensures |Existing(users, ids)| <= |ids|
  {
    if ids != [] {
      ExistingIsShort(users, ids[1..]);
    }
  }

  /** A worker with its participants before it reads and applies all of them. */
  lemma Reconciles(
    s: System, actions: seq<Action>, w: WorkerId, answers: Answers, stamp: string, excess: UserId -> Excess)
    returns (longer: seq<Action>)
    requires Runs(s, actions) && CanRead(Last(s, actions), w, Last(s, actions).users, answers)
    requires Last(s, actions).workers[w].phase.claims == [] && Free(Last(s, actions), w) && forall u :: Plain(answers(u))
    requires var t, worker := Last(s, actions), Last(s, actions).workers[w];
      Ascending(worker.phase.todo) && forall u :: u in worker.phase.todo <==> Concerns(worker.job, t.users, u)
    ensures Runs(s, longer) && Continues(actions, longer, w)
    ensures var t, u, job := Last(s, actions), Last(s, longer), Last(s, actions).workers[w].job;
      && Undisturbed(t, u, w)
      && RowsShow(job, t.users, AfterWrites(t.users, WritesOf(u.workers[w].phase)), answers)
      && if job.Solo? then u.workers[w].phase.Committing? && u.workers[w].phase.effect == NoAudit && !u.workers[w].phase.failing
         else && u.workers[w].phase.Auditing? && !u.workers[w].phase.failing
              && u.workers[w].phase.audit == Audit(Success, job.eventId)
  {
    var t := Last(s, actions);
    hide Runs, Last, Continues, Free, Concerns, Readable, Plain, AllReadAs, AllWriteAnswers, RowsShow, AfterWrites, Undisturbed, Ascending;
    var first := ReadsAndApplies(s, actions, w, answers, stamp, excess);
    UndisturbedTables(t, Last(s, first), w);
    WritesShow(t.workers[w].job, t.users, Last(s, first).workers[w].phase.writes, answers);
    longer := AppliesEnd(s, first, w);
    UndisturbedOn(t, Last(s, first), Last(s, longer), w);
    ContinuesOn(actions, first, longer, w);
  }

  lemma StartedCanRead(t: System, u: System, w: WorkerId, answers: Answers)
    requires w in t.workers && Ample(t, w, t.workers[w].job, answers) && Undisturbed(t, u, w) && u.clock == t.clock
    requires var job, phase := t.workers[w].job, u.workers[w].phase;
      && phase.Reading? && phase.claims == [] && |phase.todo| <= (if job.Webhook? then |job.named| else 1)
      && forall u :: u in phase.todo ==> Concerns(job, t.users, u)
    ensures CanRead(u, w, u.users, answers)
  {
    hide Concerns, Readable, Free, Plain;
  }

  /** A worker past its check goes on until its writes and its audit are ready. */
  lemma Prepares(
    s: System, actions: seq<Action>, w: WorkerId, answers: Answers, stamp: string, excess: UserId -> Excess)
    returns (longer: seq<Action>)
    requires Runs(s, actions) && w in Last(s, actions).workers
    requires var t, worker := Last(s, actions), Last(s, actions).workers[w];
      && Ample(t, w, worker.job, answers)
      && if worker.job.Webhook? then worker.phase.Cleared? else worker.phase.Arrived?
    ensures Runs(s, longer) && Continues(actions, longer, w)
    ensures var t, u, job := Last(s, actions), Last(s, longer), Last(s, actions).workers[w].job;
      && Undisturbed(t, u, w)
      && RowsShow(job, t.users, AfterWrites(t.users, WritesOf(u.workers[w].phase)), answers)
      && if job.Solo? then u.workers[w].phase.Committing? && u.workers[w].phase.effect == NoAudit && !u.workers[w].phase.failing
         else && u.workers[w].phase.Auditing? && !u.workers[w].phase.failing
              && u.workers[w].phase.audit ==
                   Audit(if exists u :: Concerns(job, t.users, u) then Success else Skipped, job.eventId)
  {
    var t := Last(s, actions);
    var job := t.workers[w].job;
    StartChooses(t, w);
    hide Runs, Last, Ready, Stepped, Continues, Free, Concerns, Readable, Plain, AllReadAs, AllWriteAnswers, RowsShow, AfterWrites, Undisturbed, CanRead, Ascending;
    longer := Takes(s, actions, w, Start);
    UndisturbedTables(t, Last(s, longer), w);
    if Last(s, longer).workers[w].phase.Auditing? {
      NothingToShow(job, t.users, answers);
    } else {
      var first := longer;
      StartedCanRead(t, Last(s, first), w, answers);
      longer := Reconciles(s, first, w, answers, stamp, excess);
      UndisturbedOn(t, Last(s, first), Last(s, longer), w);
      ContinuesOn(actions, first, longer, w);
    }
  }

  lemma NothingToShow(job: Job, users: map<UserId, User>, answers: Answers)
    requires forall u :: !Concerns(job, users, u)
    ensures RowsShow(job, users, AfterWrites(users, []), answers)
  {
    hide Concerns;
  }

  lemma AppliesEnd(s: System, actions: seq<Action>, w: WorkerId) returns (longer: seq<Action>)
    requires Runs(s, actions) && w in Last(s, actions).workers
    requires Last(s, actions).workers[w].phase.Applying? && Last(s, actions).workers[w].phase.pending == []
    ensures Runs(s, longer) && Continues(actions, longer, w) && Undisturbed(Last(s, actions), Last(s, longer), w)
    ensures var worker := Last(s, actions).workers[w];
      Last(s, longer).workers[w].phase ==
        if worker.job.Solo? then Committing(NoAudit, worker.phase.writes, false)
        else Auditing(Audit(Success, worker.job.eventId), worker.phase.writes, false)
  {
    hide Runs, Last, Blocked;
    longer := Takes(s, actions, w, FinishApply);
  }

  /** A delivery takes the lease and gets past the check. */
  lemma GetsToWork(s: System, actions: seq<Action>, w: WorkerId, job: Job, key: Key) returns (longer: seq<Action>)
    requires Runs(s, actions) && Identifies(key, job) && Ascending(job.named)
    requires var t := Last(s, actions);
      && w !in t.workers && key !in t.leases
      && !Concluded(t.audits, key) && (key in t.audits || !ConcludedEarlier(t.audits, job))
    ensures Runs(s, longer) && Continues(actions + [Spawn(w, job)], longer, w)
    ensures var t, u := Last(s, actions), Last(s, longer);
      && SameTables(t, u) && u.clock == t.clock && u.leases == t.leases[key := w]
      && w in u.workers && u.workers == t.workers[w := u.workers[w]]
      && u.workers[w].job == job && u.workers[w].phase == Cleared
  {
    hide Runs, Last, Concluded, ConcludedEarlier;
    var first := RunExtends(s, actions, Spawn(w, job));
    var second := RunExtends(s, first, By(w, Arrive(false)));
    longer := CheckDecides(s, second, w, key);
  }

  /** A worker past its check handles its event. */
  lemma HandlesCleared(
    s: System, actions: seq<Action>, w: WorkerId, key: Key,
    answers: Answers, stamp: string, excess: UserId -> Excess) returns (longer: seq<Action>)
    requires Runs(s, actions) && w in Last(s, actions).workers
    requires var t, worker := Last(s, actions), Last(s, actions).workers[w];
      && worker.phase.Cleared? && Identifies(key, worker.job) && Ample(t, w, worker.job, answers)
      && !Concluded(t.audits, key)
    ensures Runs(s, longer) && Continues(actions, longer, w)
    ensures var t, u, job := Last(s, actions), Last(s, longer), Last(s, actions).workers[w].job;
      && w in u.workers && u.workers[w].phase == Done(true) && u.leases == Released(t.leases, key, w)
      && u.audits == t.audits[key := Audit(if exists v :: Concerns(job, t.users, v) then Success else Skipped, job.eventId)]
      && RowsShow(job, t.users, u.users, answers)
  {
    var t := Last(s, actions);
    var job := t.workers[w].job;
    assert job.Webhook?;
    hide Runs, Last, Continues, Ample, Concerns, RowsShow, AfterWrites, Concluded, ConcludedEarlier, Identifies, Released;
    var first := Prepares(s, actions, w, answers, stamp, excess);
    AmpleIsFree(t, w, job, answers);
    UndisturbedTables(t, Last(s, first), w);
    longer := RecordsAudit(s, first, w, key);
    ContinuesOn(actions, first, longer, w);
  }

  /**
   An event is handled: whenever one is delivered that has no lease and was not concluded, and
   nobody holds a row lock, a run that meets no fault reconciles exactly the live users the event
   names, each to what the provider answered about them, records success or, if there are none,
   that it was skipped, releases its lease and answers success.  An earlier error is no obstacle.
   */
  lemma EventIsHandled(
    s: System, actions: seq<Action>, w: WorkerId, job: Job, key: Key,
    answers: Answers, stamp: string, excess: UserId -> Excess) returns (longer: seq<Action>)
    requires Runs(s, actions) && Identifies(key, job)
    requires var t := Last(s, actions);
      && w !in t.workers && key !in t.leases && Ample(t, w, job, answers)
      && !Concluded(t.audits, key) && (key in t.audits || !ConcludedEarlier(t.audits, job))
    ensures Runs(s, longer) && Continues(actions + [Spawn(w, job)], longer, w)
    ensures var t, u := Last(s, actions), Last(s, longer);
      && w in u.workers && u.workers[w].phase == Done(true) && u.leases == t.leases
      && u.audits == t.audits[key := Audit(if exists v :: Concerns(job, t.users, v) then Success else Skipped, job.eventId)]
      && RowsShow(job, t.users, u.users, answers)
  {
    var t := Last(s, actions);
    var first := GetsToWork(s, actions, w, job, key);
    hide Runs, Last, Continues, Ample, Concerns, RowsShow, Concluded, ConcludedEarlier, Identifies;
    StaysAmple(t, Last(s, first), w, job, answers);
    longer := HandlesCleared(s, first, w, key, answers, stamp, excess);
    ContinuesOn(actions + [Spawn(w, job)], first, longer, w);
    assert Released(t.leases[key := w], key, w) == t.leases;
  }

  lemma StaysAmple(s: System, t: System, w: WorkerId, job: Job, answers: Answers)
    requires Ample(s, w, job, answers) && t.users == s.users && t.clock == s.clock
    requires w in t.workers && t.workers == s.workers[w := t.workers[w]]
    ensures Ample(t, w, job, answers)
  {
    hide Holds, Concerns, Readable, Plain;
  }

  lemma AmpleIsFree(s: System, w: WorkerId, job: Job, answers: Answers)
    requires Ample(s, w, job, answers)
    ensures Free(s, w)
  {
  }

  /** The same for a scheduled or restore reconciliation, which takes no lease and writes no audit. */
  lemma UserIsReconciled(
    s: System, actions: seq<Action>, w: WorkerId, user: UserId,
    answers: Answers, stamp: string, excess: UserId -> Excess) returns (longer: seq<Action>)
    requires Runs(s, actions)
    requires var t := Last(s, actions); w !in t.workers && Ample(t, w, Solo(user), answers)
    ensures Runs(s, longer) && Continues(actions + [Spawn(w, Solo(user))], longer, w)
    ensures var t, u := Last(s, actions), Last(s, longer);
      && w in u.workers && u.workers[w].phase == Done(true)
      && u.audits == t.audits && u.leases == t.leases
      && user in u.users && (exists at :: Shows(u.users[user], answers(user), at))
      && forall v :: v in t.users && v != user ==> v in u.users && u.users[v] == t.users[v]
  {
    var t := Last(s, actions);
    hide Runs, Last, Blocked;
    var first := RunExtends(s, actions, Spawn(w, Solo(user)));
    var started := Last(s, first);
    StaysAmple(t, started, w, Solo(user), answers);
    hide Continues, Ample, AfterWrites, Shows;
    var second := Prepares(s, first, w, answers, stamp, excess);
    UndisturbedTables(started, Last(s, second), w);
    longer := CommitsNow(s, second, w);
    ContinuesOn(first, second, longer, w);
    assert Concerns(Solo(user), t.users, user);
  }
}
