/**
 Uploads, cleanup and reconciliation as interleaved steps over the object store and the
 database (app/services/image_service.py:503-632, app/jobs/image_cleanup.py:60-327).
 Any number of uploads and reconciliation passes may be under way at once, and each may stop
 after any step.
 */
module PhotoRuns {
  import opened Prelude
  import opened PhotoStore

  type PassId = nat

  /**
   An upload whose key is chosen: for which entity, whether its object is stored, and since
   when its database transaction is open.
   */
  datatype Upload = Upload(entity: Entity, stored: bool, since: int)

  /** A pass: how many of its four queries are answered, what they told, and what it will insert. */
  datatype Pass = Pass(stage: nat, known: set<Key>, at: int, pending: seq<Orphan>)

  /**
     `photos`, `rows` and `nextId` are committed database state.  `cleared` are the rows whose
     objects a running cleanup has deleted.  The other fields are history: `issued` keys,
     `dropped` keys of uploads that stopped short of the database, `crossed` keys of uploads
     under way at the same time as a pass, and for each replaced key the time its row is given,
     `retired`.
   */
  datatype State = State(
    now: int,
    objects: set<Key>,
    photos: map<Entity, Key>,
    rows: map<RowId, Orphan>,
    nextId: RowId,
    uploads: map<Key, Upload>,
    passes: map<PassId, Pass>,
    cleared: set<RowId>,
    issued: set<Key>,
    dropped: set<Key>,
    crossed: set<Key>,
    retired: map<Key, int>)

  datatype Step =
    | Begin(key: Key, entity: Entity, shortId: string)
    | Put(key: Key)
    | Attach(key: Key)
    | Abandon(key: Key)
    | DeleteObject(row: RowId)
    | RemoveRows(ids: set<RowId>)
    | StopCleanup
    | StartPass(pass: PassId)
    | Read(pass: PassId)
    | ListPage(pass: PassId, page: seq<Key>)
    | FlushPass(pass: PassId)
    | StopPass(pass: PassId)
    | Wait(duration: nat)

  /** ORPHAN_GRACE_PERIOD_DAYS, in seconds. */
  const GRACE := 7 * 86400

  /** The queries for the keys of each type; one more query reads the tracked keys. */
  const QUERIES := 3

  function QueryOf(e: Entity): nat {
    if e.entityType == PREFIXES[0].1 then 0 else if e.entityType == PREFIXES[1].1 then 1 else 2
  }

  function Live(s: State): set<Key> {
    set e | e in s.photos :: s.photos[e]
  }

  function Tracked(s: State): set<Key> {
    KeysOf(s.rows, s.rows.Keys)
  }

  function Initial(): State {
    State(0, {}, map[], map[], 0, map[], map[], {}, {}, {}, {}, map[])
  }

  /** What query number `stage` of a pass returns. */
  function Answer(s: State, stage: nat): set<Key> {
    if stage < QUERIES then set e | e in s.photos && QueryOf(e) == stage :: s.photos[e]
    else Tracked(s)
  }

  predicate Enabled(s: State, step: Step) {
    match step
    case Begin(key, entity, shortId) => BuildObjectKey(entity, shortId) == Accepted(key) && key !in s.issued
    case Put(key) => key in s.uploads && !s.uploads[key].stored
    case Attach(key) => key in s.uploads && s.uploads[key].stored
    case Abandon(key) => key in s.uploads
    case DeleteObject(row) => row in s.rows && s.rows[row].orphanedAt < s.now - GRACE
    case RemoveRows(ids) => ids <= s.cleared
    case StopCleanup => true
    case StartPass(pass) => pass !in s.passes
    case Read(pass) => pass in s.passes && s.passes[pass].stage <= QUERIES
    case ListPage(pass, page) =>
      pass in s.passes && s.passes[pass].stage > QUERIES && forall k :: k in page ==> k in s.objects
    case FlushPass(pass) => pass in s.passes
    case StopPass(pass) => pass in s.passes
    case Wait(duration) => true
  }

  /**
   `_update_entity_photo_key`: the replaced key is tracked by the commit that replaces it.  The
   row's time is the database's default, the start of the transaction.
   */
  function AttachTo(s: State, key: Key, e: Entity, since: int): State {
    var s' := s.(photos := s.photos[e := key], uploads := s.uploads - {key});
    if e in s.photos then
      s'.(rows := s.rows[s.nextId := Orphan(s.photos[e], e.entityType, since)],
          nextId := s.nextId + 1,
          retired := s.retired[s.photos[e] := since])
    else s'
  }

  function Effect(s: State, step: Step): State
    requires Enabled(s, step)
  {
    match step
    case Begin(key, entity, _) =>
      s.(issued := s.issued + {key}, uploads := s.uploads[key := Upload(entity, false, s.now)])
    case Put(key) =>
      s.(objects := s.objects + {key}, uploads := s.uploads[key := s.uploads[key].(stored := true)])
    case Attach(key) => AttachTo(s, key, s.uploads[key].entity, s.uploads[key].since)
    case Abandon(key) => s.(uploads := s.uploads - {key}, dropped := s.dropped + {key})
    case DeleteObject(row) =>
      s.(objects := s.objects - {s.rows[row].oldKey}, cleared := s.cleared + {row})
    case RemoveRows(ids) => s.(rows := s.rows - ids)
    case StopCleanup => s.(cleared := {})
    case StartPass(pass) => s.(passes := s.passes[pass := Pass(0, {}, s.now, [])])
    case Read(pass) =>
      var p := s.passes[pass];
      s.(passes := s.passes[pass := p.(stage := p.stage + 1, known := p.known + Answer(s, p.stage), at := s.now)])
    case ListPage(pass, page) =>
      var p := s.passes[pass];
      s.(passes := s.passes[pass := p.(pending := p.pending + OrphansOf(Missing(page, p.known), p.at))])
    case FlushPass(pass) =>
      var p := s.passes[pass];
      s.(rows := s.rows + Numbered(s.nextId, p.pending), nextId := s.nextId + |p.pending|,
         passes := s.passes[pass := p.(pending := [])])
    case StopPass(pass) => s.(passes := s.passes - {pass})
    case Wait(duration) => s.(now := s.now + duration)
  }

  /** An upload and a pass that are under way in the same state have crossed. */
  function Meeting(s: State): set<Key> {
    if s.passes == map[] then {} else s.uploads.Keys
  }

  function Next(s: State, step: Step): State
    requires Enabled(s, step)
  {
    var s' := Effect(s, step);
    s'.(crossed := s.crossed + Meeting(s'))
  }

  ghost predicate IsRun(states: seq<State>, steps: seq<Step>) {
    && |states| == |steps| + 1
    && states[0] == Initial()
    && forall i :: 0 <= i < |steps| ==> Enabled(states[i], steps[i]) && states[i + 1] == Next(states[i], steps[i])
  }

  // ------------------------------------------------------------------ the invariant

  ghost predicate Pending(s: State, o: Orphan) {
    exists pass :: pass in s.passes && o in s.passes[pass].pending
  }

  /** Keys are issued once, and each is in one phase of its life. */
  ghost predicate KeysInPhase(s: State) {
    && (forall k :: k in s.objects || k in s.uploads || k in s.dropped || k in s.retired ==> k in s.issued)
    && (forall e :: e in s.photos ==>
          && s.photos[e] in s.issued
          && s.photos[e] !in s.uploads && s.photos[e] !in s.dropped
          && s.photos[e] !in s.retired)
    && (forall e, f :: e in s.photos && f in s.photos && e != f ==> s.photos[e] != s.photos[f])
    && (forall k :: k in s.uploads || k in s.dropped ==> k !in s.retired)
    && s.uploads.Keys !! s.dropped
    && (forall id :: id in s.rows ==> id < s.nextId && s.rows[id].oldKey in s.issued)
    && (forall o :: Pending(s, o) ==> o.oldKey in s.issued)
    && (forall id :: id in s.cleared ==> id < s.nextId)
  }

  /** A key whose object is not stored yet is nowhere else; a cleared row has no object. */
  ghost predicate StoredOnce(s: State) {
    && (forall k :: k in s.uploads && !s.uploads[k].stored ==> Untouched(s, k) && k !in s.objects)
    && (forall id :: id in s.cleared && id in s.rows ==> s.rows[id].oldKey !in s.objects)
  }

  /** No row names the key and no pass is about to insert one. */
  ghost predicate Untouched(s: State, k: Key) {
    && (forall id :: id in s.rows ==> s.rows[id].oldKey != k)
    && (forall o :: Pending(s, o) ==> o.oldKey != k)
  }

  ghost predicate LiveIsSafe(s: State) {
    forall e :: e in s.photos && s.photos[e] !in s.crossed ==>
      && s.photos[e] in s.objects
      && Untouched(s, s.photos[e])
      && forall pass :: pass in s.passes && QueryOf(e) < s.passes[pass].stage
           ==> s.photos[e] in s.passes[pass].known
  }

  ghost predicate UploadIsSafe(s: State) {
    && Meeting(s) <= s.crossed
    && forall k :: k in s.uploads && k !in s.crossed ==>
         && Untouched(s, k)
         && (s.uploads[k].stored ==> k in s.objects)
  }

  /** A replaced key is tracked since its replacement, and stored until its grace period is over. */
  ghost predicate RetiredIsKept(s: State) {
    forall k :: k in s.retired && k !in s.crossed ==>
      && (k in s.objects || s.retired[k] < s.now - GRACE)
      && (forall id :: id in s.rows && s.rows[id].oldKey == k ==> s.rows[id].orphanedAt == s.retired[k])
      && (forall o :: Pending(s, o) ==> o.oldKey != k)
      && forall pass :: pass in s.passes && s.passes[pass].stage > QUERIES && k in s.objects
           ==> k in s.passes[pass].known
  }

  ghost predicate Accounted(s: State) {
    s.objects <= Live(s) + Tracked(s) + s.uploads.Keys + s.dropped
  }

  ghost predicate Invariant(s: State) {
    KeysInPhase(s) && StoredOnce(s) && LiveIsSafe(s) && UploadIsSafe(s) && RetiredIsKept(s) && Accounted(s)
  }

  // ------------------------------------------------------------------ helpers

  /** A page yields orphans for keys it lists and the pass does not know. */
  lemma FoundMeaning(page: seq<Key>, known: set<Key>, at: int)
    ensures forall o :: o in OrphansOf(Missing(page, known), at) ==> o.oldKey in page && o.oldKey !in known
  {
    MissingMembers(page, known);
  }

  /** The row of the key an upload replaces. */
  function Replaced(s: State, upload: Upload): Orphan
    requires upload.entity in s.photos
  {
    Orphan(s.photos[upload.entity], upload.entity.entityType, upload.since)
  }

  /** Where the rows of the next state come from. */
  lemma RowsAfter(s: State, step: Step)
    requires KeysInPhase(s) && Enabled(s, step)
    ensures var s' := Next(s, step);
            && s'.nextId >= s.nextId
            && forall id :: id in s'.rows ==>
                 || (id in s.rows && s'.rows[id] == s.rows[id])
                 || (step.Attach? && s.uploads[step.key].entity in s.photos
                     && s.nextId <= id < s'.nextId
                     && s'.rows[id] == Replaced(s, s.uploads[step.key]))
                 || (step.FlushPass? && s.nextId <= id < s'.nextId && Pending(s, s'.rows[id]))
  {
    if step.FlushPass? {
      var p := s.passes[step.pass];
      NumberedAt(s.nextId, p.pending);
      var s' := Next(s, step);
      forall id | id in s'.rows && id !in s.rows
        ensures Pending(s, s'.rows[id])
      {
        assert s'.rows[s.nextId + (id - s.nextId)] == p.pending[id - s.nextId];
      }
    }
  }

  /** What a pass may insert in the next state. */
  lemma PendingAfter(s: State, step: Step)
    requires Enabled(s, step)
    ensures forall o :: Pending(Next(s, step), o) ==>
              || Pending(s, o)
              || (step.ListPage? && o.oldKey in s.objects && o.oldKey !in s.passes[step.pass].known)
  {
    if step.ListPage? {
      FoundMeaning(step.page, s.passes[step.pass].known, s.passes[step.pass].at);
    }
  }

  /** A pass reads; only its own record, and the rows when it flushes, change. */
  lemma PassFrame(s: State, step: Step)
    requires Enabled(s, step) && OfPass(step)
    ensures var s' := Next(s, step);
            && s'.now == s.now && s'.objects == s.objects && s'.photos == s.photos && s'.uploads == s.uploads
            && s'.cleared == s.cleared && s'.issued == s.issued && s'.dropped == s.dropped
            && s'.retired == s.retired && s.crossed <= s'.crossed
            && forall pass :: pass in s'.passes && s'.passes[pass].stage > QUERIES ==>
                 || (pass in s.passes && s.passes[pass].stage > QUERIES && s.passes[pass].known <= s'.passes[pass].known)
                 || Tracked(s) <= s'.passes[pass].known
  {
  }

  lemma AttachFrame(s: State, key: Key)
    requires Enabled(s, Attach(key))
    ensures var s' := Next(s, Attach(key));
            var e := s.uploads[key].entity;
            && s'.now == s.now && s'.objects == s.objects && s'.passes == s.passes && s'.cleared == s.cleared
            && s'.issued == s.issued && s'.dropped == s.dropped && s.crossed <= s'.crossed
            && s'.photos == s.photos[e := key] && s'.uploads == s.uploads - {key}
            && s'.retired == if e in s.photos then s.retired[s.photos[e] := s.uploads[key].since] else s.retired
  {
  }

  // ------------------------------------------------------------------ each step keeps the invariant

  predicate OfPass(step: Step) {
    step.StartPass? || step.Read? || step.ListPage? || step.FlushPass? || step.StopPass?
  }

  lemma KeysKeptByAttach(s: State, step: Step)
    requires KeysInPhase(s) && Enabled(s, step) && step.Attach?
    ensures KeysInPhase(Next(s, step))
  {
    RowsAfter(s, step);
    PendingAfter(s, step);
    AttachFrame(s, step.key);
    hide Numbered, OrphansOf, Missing, QueryOf, BuildObjectKey, Pending, Meeting, Answer, Next, Effect, AttachTo, Tracked, Live;
  }

  lemma KeysKeptByOthers(s: State, step: Step)
    requires KeysInPhase(s) && Enabled(s, step) && !step.Attach? && !OfPass(step)
    ensures KeysInPhase(Next(s, step))
  {
    RowsAfter(s, step);
    PendingAfter(s, step);
    hide Numbered, OrphansOf, Missing, QueryOf, BuildObjectKey, Pending, Meeting, Answer, Tracked, Live;
  }

  lemma KeysKeptByPass(s: State, step: Step)
    requires KeysInPhase(s) && Enabled(s, step) && OfPass(step)
    ensures KeysInPhase(Next(s, step))
  {
    RowsAfter(s, step);
    PendingAfter(s, step);
    PassFrame(s, step);
    hide Numbered, OrphansOf, Missing, QueryOf, BuildObjectKey, Pending, Meeting, Answer, Next, Effect, AttachTo, Tracked, Live;
  }

  lemma StoredOnceKeptByAttach(s: State, step: Step)
    requires KeysInPhase(s) && StoredOnce(s) && Enabled(s, step) && step.Attach?
    ensures StoredOnce(Next(s, step))
  {
    RowsAfter(s, step);
    PendingAfter(s, step);
    AttachFrame(s, step.key);
    hide Numbered, OrphansOf, Missing, QueryOf, BuildObjectKey, Pending, Meeting, Answer, Next, Effect, AttachTo, Tracked, Live;
  }

  lemma StoredOnceKeptByOthers(s: State, step: Step)
    requires KeysInPhase(s) && StoredOnce(s) && Enabled(s, step) && !step.Attach? && !OfPass(step)
    ensures StoredOnce(Next(s, step))
  {
    RowsAfter(s, step);
    PendingAfter(s, step);
    hide Numbered, OrphansOf, Missing, QueryOf, BuildObjectKey, Pending, Meeting, Answer, Tracked, Live;
  }

  lemma StoredOnceKeptByPass(s: State, step: Step)
    requires KeysInPhase(s) && StoredOnce(s) && Enabled(s, step) && OfPass(step)
    ensures StoredOnce(Next(s, step))
  {
    RowsAfter(s, step);
    PendingAfter(s, step);
    PassFrame(s, step);
    hide Numbered, OrphansOf, Missing, QueryOf, BuildObjectKey, Pending, Meeting, Answer, Next, Effect, AttachTo, Tracked, Live;
  }

  lemma LiveKeptByAttach(s: State, step: Step)
    requires KeysInPhase(s) && LiveIsSafe(s) && UploadIsSafe(s) && Enabled(s, step) && step.Attach?
    ensures LiveIsSafe(Next(s, step))
  {
    RowsAfter(s, step);
    PendingAfter(s, step);
    hide Numbered, OrphansOf, Missing, QueryOf, BuildObjectKey, Pending, Meeting, Answer, Tracked, Live;
    var s' := Next(s, step);
    forall e | e in s'.photos && s'.photos[e] !in s'.crossed
      ensures s'.photos[e] in s'.objects && Untouched(s', s'.photos[e])
      ensures forall pass :: pass in s'.passes && QueryOf(e) < s'.passes[pass].stage
                ==> s'.photos[e] in s'.passes[pass].known
    {
      if s.uploads[step.key].entity == e {
        NewlyAttached(s, step.key);
      }
    }
  }

  lemma LiveKeptByOthers(s: State, step: Step)
    requires KeysInPhase(s) && LiveIsSafe(s) && UploadIsSafe(s) && Enabled(s, step) && !step.Attach? && !OfPass(step)
    ensures LiveIsSafe(Next(s, step))
  {
    RowsAfter(s, step);
    PendingAfter(s, step);
    hide Numbered, OrphansOf, Missing, QueryOf, BuildObjectKey, Pending, Meeting, Answer, Tracked, Live;
  }

  lemma LiveKeptByPass(s: State, step: Step)
    requires KeysInPhase(s) && LiveIsSafe(s) && UploadIsSafe(s) && Enabled(s, step) && OfPass(step)
    ensures LiveIsSafe(Next(s, step))
  {
    RowsAfter(s, step);
    PendingAfter(s, step);
    hide Numbered, OrphansOf, Missing, QueryOf, BuildObjectKey, Pending, Meeting, Answer, Tracked, Live;
    var s' := Next(s, step);
    forall e | e in s'.photos && s'.photos[e] !in s'.crossed
      ensures s'.photos[e] in s'.objects && Untouched(s', s'.photos[e])
      ensures forall pass :: pass in s'.passes && QueryOf(e) < s'.passes[pass].stage
                ==> s'.photos[e] in s'.passes[pass].known
    {
      if step.Read? {
        KnownAfterRead(s, step.pass, e);
      }
    }
  }

  /** An upload that met no pass attaches while no pass is under way. */
  lemma NewlyAttached(s: State, key: Key)
    requires UploadIsSafe(s) && Enabled(s, Attach(key)) && key !in s.crossed
    ensures key in s.objects && Untouched(s, key) && s.passes == map[]
  {
    assert key in s.uploads.Keys;
  }

  lemma KnownAfterRead(s: State, pass: PassId, e: Entity)
    requires LiveIsSafe(s) && Enabled(s, Read(pass)) && e in s.photos && s.photos[e] !in s.crossed
    ensures var s' := Next(s, Read(pass));
            forall other :: other in s'.passes && QueryOf(e) < s'.passes[other].stage
              ==> s.photos[e] in s'.passes[other].known
  {
    var stage := s.passes[pass].stage;
    if stage == QueryOf(e) {
      assert s.photos[e] in Answer(s, stage);
    }
  }

  lemma RetiredKeptByAttach(s: State, step: Step)
    requires KeysInPhase(s) && LiveIsSafe(s) && RetiredIsKept(s) && Accounted(s) && Enabled(s, step) && step.Attach?
    ensures RetiredIsKept(Next(s, step))
  {
    RowsAfter(s, step);
    PendingAfter(s, step);
    AttachFrame(s, step.key);
    hide Numbered, OrphansOf, Missing, QueryOf, BuildObjectKey, Pending, Meeting, Answer, Next, Effect, AttachTo, Tracked, Live;
  }

  lemma RetiredKeptByOthers(s: State, step: Step)
    requires KeysInPhase(s) && LiveIsSafe(s) && RetiredIsKept(s) && Accounted(s) && Enabled(s, step) && !step.Attach? && !OfPass(step)
    ensures RetiredIsKept(Next(s, step))
  {
    RowsAfter(s, step);
    PendingAfter(s, step);
    hide Numbered, OrphansOf, Missing, QueryOf, BuildObjectKey, Pending, Meeting, Answer, Tracked, Live;
  }

  lemma RetiredKeptByPass(s: State, step: Step)
    requires KeysInPhase(s) && LiveIsSafe(s) && RetiredIsKept(s) && Accounted(s) && Enabled(s, step) && OfPass(step)
    ensures RetiredIsKept(Next(s, step))
  {
    RowsAfter(s, step);
    PendingAfter(s, step);
    PassFrame(s, step);
    hide Numbered, OrphansOf, Missing, QueryOf, BuildObjectKey, Pending, Meeting, Answer, Next, Effect, AttachTo;
    var s' := Next(s, step);
    forall k | k in s'.retired && k !in s'.crossed
      ensures k in s'.objects || s'.retired[k] < s'.now - GRACE
      ensures forall id :: id in s'.rows && s'.rows[id].oldKey == k ==> s'.rows[id].orphanedAt == s'.retired[k]
      ensures forall o :: Pending(s', o) ==> o.oldKey != k
      ensures forall pass :: pass in s'.passes && s'.passes[pass].stage > QUERIES && k in s'.objects
                ==> k in s'.passes[pass].known
    {
      if k in s.objects {
        RetiredIsTracked(s, k);
      }
    }
  }

  lemma RetiredIsTracked(s: State, k: Key)
    requires KeysInPhase(s) && Accounted(s) && k in s.retired && k in s.objects
    ensures k in Tracked(s)
  {
  }

  lemma UploadsKept(s: State, step: Step)
    requires KeysInPhase(s) && UploadIsSafe(s) && Enabled(s, step)
    ensures UploadIsSafe(Next(s, step))
  {
    RowsAfter(s, step);
    PendingAfter(s, step);
    hide Numbered, OrphansOf, Missing, QueryOf, BuildObjectKey, Pending;
  }

  ghost predicate InAccount(s: State, k: Key) {
    k in Live(s) || k in Tracked(s) || k in s.uploads || k in s.dropped
  }

  /** A replaced key is tracked by the commit that replaces it. */
  lemma LiveStaysInAccount(s: State, step: Step, k: Key)
    requires KeysInPhase(s) && Enabled(s, step) && k in Live(s)
    ensures InAccount(Next(s, step), k)
  {
    hide Numbered, OrphansOf, Missing, QueryOf, BuildObjectKey, Meeting, Answer;
    var s' := Next(s, step);
    var e :| e in s.photos && s.photos[e] == k;
    if step.Attach? && s.uploads[step.key].entity == e {
      assert s'.rows[s.nextId].oldKey == k;
    } else {
      assert e in s'.photos && s'.photos[e] == k;
    }
  }

  /** Only rows whose object is gone are removed. */
  lemma TrackedStaysInAccount(s: State, step: Step, k: Key)
    requires KeysInPhase(s) && StoredOnce(s) && Enabled(s, step) && k in Tracked(s) && k in s.objects
    ensures InAccount(Next(s, step), k)
  {
    var s' := Next(s, step);
    var id :| id in s.rows && s.rows[id].oldKey == k;
    if step.FlushPass? {
      NumberedAt(s.nextId, s.passes[step.pass].pending);
    }
    hide Numbered, OrphansOf, Missing, QueryOf, BuildObjectKey, Meeting, Answer;
    assert id in s'.rows && s'.rows[id].oldKey == k;
  }

  /** A stored object never falls out of the account. */
  lemma AccountedKept(s: State, step: Step)
    requires KeysInPhase(s) && StoredOnce(s) && Accounted(s) && Enabled(s, step)
    ensures Accounted(Next(s, step))
  {
    hide Numbered, OrphansOf, Missing, QueryOf, BuildObjectKey, Meeting, Answer;
    var s' := Next(s, step);
    forall k | k in s'.objects
      ensures InAccount(s', k)
    {
      if k in s.objects && k in Live(s) {
        LiveStaysInAccount(s, step, k);
      } else if k in s.objects && k in Tracked(s) {
        TrackedStaysInAccount(s, step, k);
      } else if step.Attach? && k == step.key {
        assert s'.photos[s.uploads[k].entity] == k;
      }
    }
  }

  lemma StepKeeps(s: State, step: Step)
    requires Invariant(s) && Enabled(s, step)
    ensures Invariant(Next(s, step))
  {
    hide KeysInPhase, StoredOnce, LiveIsSafe, UploadIsSafe, RetiredIsKept, Accounted, Next, Enabled;
    AccountedKept(s, step);
    UploadsKept(s, step);
    if step.Attach? {
      KeysKeptByAttach(s, step);
      StoredOnceKeptByAttach(s, step);
      LiveKeptByAttach(s, step);
      RetiredKeptByAttach(s, step);
    } else if OfPass(step) {
      KeysKeptByPass(s, step);
      StoredOnceKeptByPass(s, step);
      LiveKeptByPass(s, step);
      RetiredKeptByPass(s, step);
    } else {
      KeysKeptByOthers(s, step);
      StoredOnceKeptByOthers(s, step);
      LiveKeptByOthers(s, step);
      RetiredKeptByOthers(s, step);
    }
  }
}
