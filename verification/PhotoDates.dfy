/** The times reconciliation gives to the rows it inserts, over every run, and what they protect. */
module PhotoDates {
  import opened PhotoRuns
  import opened PhotoStore
  import opened PhotoTheorems
  import opened Prelude

  // ------------------------------------------------------------------ when a pass asked last

  /** The step is a query of the pass, or begins or ends it. */
  predicate Asks(step: Step, pass: PassId) {
    step == Read(pass) || step == StartPass(pass) || step == StopPass(pass)
  }

  lemma OtherStepsLeavePass(s: State, step: Step, pass: PassId)
    requires Enabled(s, step) && !Asks(step, pass)
    ensures pass in Next(s, step).passes <==> pass in s.passes
    ensures pass in s.passes ==>
      var p, p' := s.passes[pass], Next(s, step).passes[pass];
      p'.stage == p.stage && p'.at == p.at && p'.known == p.known
  {
    hide Numbered, OrphansOf, Missing, BuildObjectKey, Answer;
  }

  lemma AskingSetsTime(s: State, step: Step, pass: PassId)
    requires Enabled(s, step) && Asks(step, pass) && pass in Next(s, step).passes
    ensures step != StopPass(pass)
    ensures step == StartPass(pass) ==> Next(s, step).passes[pass].stage == 0
    ensures step == Read(pass) ==>
      pass in s.passes && s.passes[pass].stage <= QUERIES && Next(s, step).passes[pass].stage == s.passes[pass].stage + 1
      && Next(s, step).passes[pass].at == s.now && Next(s, step).passes[pass].pending == s.passes[pass].pending
  {
    hide Numbered, OrphansOf, Missing, BuildObjectKey, Answer;
  }

  lemma NoPassAtStart(states: seq<State>, steps: seq<Step>, i: nat, pass: PassId)
    requires IsRun(states, steps) && i < |states| && pass in states[i].passes
    ensures i > 0 && |states| == |steps| + 1
  {
  }

  /** The time of a pass is that of its last query. */
  lemma {:induction false} LastQuery(states: seq<State>, steps: seq<Step>, i: nat, pass: PassId) returns (m: nat)
    requires IsRun(states, steps) && i < |states| && pass in states[i].passes && states[i].passes[pass].stage > 0
    ensures m < i && steps[m] == Read(pass) && pass in states[m].passes
    ensures forall j :: m < j < i ==> !Asks(steps[j], pass)
    ensures states[i].passes[pass].at == states[m].now
    ensures states[i].passes[pass].stage == states[m].passes[pass].stage + 1
    ensures states[i].passes[pass].known == states[m + 1].passes[pass].known
  {
    hide Next, Effect, Enabled, IsRun, Answer, Initial;
    NoPassAtStart(states, steps, i, pass);
    StepOf(states, steps, i - 1);
    if Asks(steps[i - 1], pass) {
      AskingSetsTime(states[i - 1], steps[i - 1], pass);
      m := i - 1;
    } else {
      OtherStepsLeavePass(states[i - 1], steps[i - 1], pass);
      m := LastQuery(states, steps, i - 1, pass);
    }
  }

  // ------------------------------------------------------------------ the rows a pass inserts

  /** The pass found the key after all its queries, stored and told by none of them. */
  ghost predicate Finds(s: State, step: Step, pass: PassId, k: Key) {
    && step.ListPage? && step.pass == pass && k in step.page
    && pass in s.passes && s.passes[pass].stage > QUERIES && k !in s.passes[pass].known && k in s.objects
  }

  /** What a listing adds to what its pass will insert. */
  lemma ListingDates(s: State, step: Step, pass: PassId, o: Orphan)
    requires Enabled(s, step) && pass in Next(s, step).passes && o in Next(s, step).passes[pass].pending
    ensures pass in s.passes
    ensures o in s.passes[pass].pending
            || (Finds(s, step, pass, o.oldKey) && o.orphanedAt == s.passes[pass].at && o.entityType == TypeOfKey(o.oldKey))
  {
    if step.ListPage? {
      FoundMeaning(step.page, s.passes[step.pass].known, s.passes[step.pass].at);
    }
    hide Numbered, Missing, BuildObjectKey, Answer, TypeOfKey;
  }

  /** Whatever a pass is about to insert it found by a listing after its last query. */
  lemma {:induction false} PendingWasFound(states: seq<State>, steps: seq<Step>, i: nat, pass: PassId, o: Orphan)
    returns (l: nat)
    requires IsRun(states, steps) && i < |states| && pass in states[i].passes && o in states[i].passes[pass].pending
    ensures l < i && Finds(states[l], steps[l], pass, o.oldKey)
    ensures forall j :: l <= j < i ==> !Asks(steps[j], pass) && steps[j] != FlushPass(pass)
    ensures o.orphanedAt == states[i].passes[pass].at && o.entityType == TypeOfKey(o.oldKey)
    ensures states[i].passes[pass].stage > QUERIES
  {
    hide Next, Effect, Enabled, IsRun, TypeOfKey, Finds, Initial;
    NoPassAtStart(states, steps, i, pass);
    StepOf(states, steps, i - 1);
    ListingDates(states[i - 1], steps[i - 1], pass, o);
    if o in states[i - 1].passes[pass].pending {
      l := PendingWasFound(states, steps, i - 1, pass, o);
      NoMoreQueries(states[i - 1], steps[i - 1], pass);
    } else {
      l := i - 1;
      FindsByListing(states[i - 1], steps[i - 1], pass, o.oldKey);
    }
    FlushingEmpties(states[i - 1], steps[i - 1], pass);
    OtherStepsLeavePass(states[i - 1], steps[i - 1], pass);
  }

  lemma FlushingEmpties(s: State, step: Step, pass: PassId)
    requires Enabled(s, step) && pass in Next(s, step).passes && Next(s, step).passes[pass].pending != []
    ensures step != FlushPass(pass)
  {
  }

  lemma NoMoreQueries(s: State, step: Step, pass: PassId)
    requires Enabled(s, step) && pass in s.passes && s.passes[pass].stage > QUERIES && pass in Next(s, step).passes
    ensures !Asks(step, pass)
  {
  }

  lemma FindsByListing(s: State, step: Step, pass: PassId, k: Key)
    requires Finds(s, step, pass, k)
    ensures !Asks(step, pass) && s.passes[pass].stage > QUERIES
  {
  }

  /**
   The rows of reconciliation, over every run: a row that a pass inserts has the time of the
   pass's last query and the type of its key, and the pass listed the key after that query,
   which together with the earlier ones had not told of it.  Each listing is inserted once.
   */
  lemma PassDatesItsRows(states: seq<State>, steps: seq<Step>, i: nat, pass: PassId, id: RowId)
    returns (m: nat, l: nat)
    requires IsRun(states, steps) && i < |steps| && steps[i] == FlushPass(pass)
    requires id in states[i + 1].rows && !(id in states[i].rows && states[i].rows[id] == states[i + 1].rows[id])
    ensures m < l < i && steps[m] == Read(pass) && pass in states[m].passes && states[m].passes[pass].stage == QUERIES
    ensures forall j :: m < j < i ==> !Asks(steps[j], pass)
    ensures forall j :: l < j < i ==> steps[j] != FlushPass(pass)
    ensures var row := states[i + 1].rows[id];
      && Finds(states[l], steps[l], pass, row.oldKey)
      && row.orphanedAt == states[m].now
      && row.entityType == TypeOfKey(row.oldKey)
  {
    StepOf(states, steps, i);
    var pending := states[i].passes[pass].pending;
    NumberedAt(states[i].nextId, pending);
    var row := states[i + 1].rows[id];
    assert row in pending by {
      assert pending[id - states[i].nextId] == row;
    }
    hide Next, Effect, IsRun, Numbered, TypeOfKey, Finds;
    l := PendingWasFound(states, steps, i, pass, row);
    m := LastQuery(states, steps, i, pass);
    StepOf(states, steps, m);
    assert states[m].passes[pass].stage <= QUERIES;
  }

  // ------------------------------------------------------------------ what the time protects

  /**
   The key is neither in use nor of an upload, and nothing dates it before `since`: no row, no
   row to be inserted, and no pass that can still find it.
   */
  ghost predicate DatedSince(s: State, k: Key, since: int) {
    && s.now >= since && k in s.issued && k !in Live(s) && k !in s.uploads
    && (forall id :: id in s.rows && s.rows[id].oldKey == k ==> s.rows[id].orphanedAt >= since)
    && (forall o :: Pending(s, o) && o.oldKey == k ==> o.orphanedAt >= since)
    && forall pass :: pass in s.passes && s.passes[pass].stage > QUERIES && k !in s.passes[pass].known
         ==> s.passes[pass].at >= since
  }

  lemma DatedByPass(s: State, step: Step, k: Key, since: int)
    requires KeysInPhase(s) && DatedSince(s, k, since) && Enabled(s, step) && OfPass(step)
    ensures DatedSince(Next(s, step), k, since)
  {
    RowsAfter(s, step);
    PassFrame(s, step);
    var s' := Next(s, step);
    forall o | Pending(s', o) && o.oldKey == k
      ensures o.orphanedAt >= since
    {
      var pass :| pass in s'.passes && o in s'.passes[pass].pending;
      ListingDates(s, step, pass, o);
    }
    hide Numbered, OrphansOf, Missing, Answer, Meeting, TypeOfKey;
  }

  lemma DatedByOthers(s: State, step: Step, k: Key, since: int)
    requires KeysInPhase(s) && DatedSince(s, k, since) && Enabled(s, step) && !OfPass(step)
    ensures DatedSince(Next(s, step), k, since)
  {
    RowsAfter(s, step);
    PendingAfter(s, step);
    hide Numbered, OrphansOf, Missing, Answer, Meeting, BuildObjectKey, QueryOf;
  }

  /** Only the deletion of an expired row removes an object. */
  lemma DeletedLate(s: State, step: Step, k: Key, since: int)
    requires Enabled(s, step) && DatedSince(s, k, since) && k in s.objects
    requires Next(s, step).now <= since + GRACE
    ensures k in Next(s, step).objects
  {
    hide Numbered, OrphansOf, Missing, Answer, Meeting, BuildObjectKey, Pending;
  }

  lemma DatedByStep(s: State, step: Step, k: Key, since: int)
    requires KeysInPhase(s) && Enabled(s, step) && DatedSince(s, k, since) && k in s.objects
    requires Next(s, step).now <= since + 7 * 86400
    ensures DatedSince(Next(s, step), k, since) && k in Next(s, step).objects
  {
    hide Next, Effect, Enabled, DatedSince, KeysInPhase;
    DeletedLate(s, step, k, since);
    if OfPass(step) {
      DatedByPass(s, step, k, since);
    } else {
      DatedByOthers(s, step, k, since);
    }
  }

  lemma KeysInRun(states: seq<State>, steps: seq<Step>, i: nat)
    requires IsRun(states, steps) && i < |states|
    ensures KeysInPhase(states[i])
  {
    RunKeeps(states, steps, i);
    hide IsRun, KeysInPhase, StoredOnce, LiveIsSafe, UploadIsSafe, RetiredIsKept, Accounted;
  }

  /**
   The grace period of objects that reconciliation finds: a stored object that is neither in use
   nor of an upload, with no row and no pass that dates it before `since`, is stored in every
   continuation until `since` and the grace period are over.
   */
  lemma {:induction false} FoundObjectsAreKept(
    states: seq<State>, steps: seq<Step>, i: nat, j: nat, k: Key, since: int)
    requires IsRun(states, steps) && i <= j < |states| && DatedSince(states[i], k, since) && k in states[i].objects
    requires states[j].now <= since + 7 * 86400
    ensures DatedSince(states[j], k, since) && k in states[j].objects
    decreases j
  {
    hide Next, Effect, Enabled, DatedSince, KeysInPhase;
    if i < j {
      var before, step := states[j - 1], steps[j - 1];
      StepOf(states, steps, j - 1);
      KeysInRun(states, steps, j - 1);
      hide IsRun;
      EffectKeepsHistory(before, step);
      FoundObjectsAreKept(states, steps, i, j - 1, k, since);
      DatedByStep(before, step, k, since);
    }
  }
}
