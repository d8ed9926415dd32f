/** What the photo stores guarantee over every run of uploads, cleanups and reconciliations. */
module PhotoTheorems {
  import opened PhotoRuns
  import opened PhotoStore
  import opened Prelude

  lemma {:induction false} RunKeeps(states: seq<State>, steps: seq<Step>, i: nat)
    requires IsRun(states, steps) && i < |states|
    ensures Invariant(states[i])
  {
    if i == 0 {
      assert forall o :: !Pending(Initial(), o);
    } else {
      RunKeeps(states, steps, i - 1);
      hide Invariant, Next, Enabled;
      StepKeeps(states[i - 1], steps[i - 1]);
    }
  }

  /** `crossed` holds exactly the keys of uploads that were under way together with a pass. */
  lemma {:induction false} CrossedMeaning(states: seq<State>, steps: seq<Step>, i: nat, k: Key)
    requires IsRun(states, steps) && i < |states|
    ensures k in states[i].crossed <==>
            exists j :: 0 <= j <= i && states[j].passes != map[] && k in states[j].uploads
  {
    if i > 0 {
      CrossedMeaning(states, steps, i - 1, k);
      EffectKeepsHistory(states[i - 1], steps[i - 1]);
      assert states[i] == Next(states[i - 1], steps[i - 1]);
      hide Effect, Enabled;
      assert k in states[i].crossed <==>
          k in states[i - 1].crossed || (states[i].passes != map[] && k in states[i].uploads);
    }
  }

  lemma EffectKeepsHistory(s: State, step: Step)
    requires Enabled(s, step)
    ensures Effect(s, step).crossed == s.crossed
    ensures Next(s, step).now >= s.now
  {
  }

  /**
     However the steps interleave, a photo whose upload met no reconciliation pass is stored
     and no orphan row names it, so no cleanup can delete it.
   */
  lemma LivePhotosSurvive(states: seq<State>, steps: seq<Step>, i: nat, e: Entity)
    requires IsRun(states, steps) && i < |states|
    requires e in states[i].photos && states[i].photos[e] !in states[i].crossed
    ensures states[i].photos[e] in states[i].objects
    ensures states[i].photos[e] !in Tracked(states[i])
  {
    RunKeeps(states, steps, i);
  }

  /** Every stored object is a photo in use, tracked for deletion, or of an upload that did not reach the database. */
  lemma NothingIsForgotten(states: seq<State>, steps: seq<Step>, i: nat, k: Key)
    requires IsRun(states, steps) && i < |states| && k in states[i].objects
    ensures k in Live(states[i]) || k in Tracked(states[i]) || k in states[i].uploads || k in states[i].dropped
  {
    RunKeeps(states, steps, i);
  }

  /**
     If no upload overlaps a pass, no orphan row ever names a photo in use, every photo in use
     is stored, and every stored object is accounted for.
   */
  lemma WithoutOverlapNothingIsLost(states: seq<State>, steps: seq<Step>, i: nat)
    requires IsRun(states, steps) && i < |states|
    requires forall j :: 0 <= j <= i ==> states[j].passes == map[] || states[j].uploads == map[]
    ensures Live(states[i]) <= states[i].objects
    ensures Live(states[i]) !! Tracked(states[i])
    ensures states[i].objects <= Live(states[i]) + Tracked(states[i]) + states[i].uploads.Keys + states[i].dropped
  {
    RunKeeps(states, steps, i);
    forall e | e in states[i].photos
      ensures states[i].photos[e] in states[i].objects && states[i].photos[e] !in Tracked(states[i])
    {
      CrossedMeaning(states, steps, i, states[i].photos[e]);
      LivePhotosSurvive(states, steps, i, e);
    }
  }

  // ------------------------------------------------------------------ how long a replaced photo is kept

  /** The step is no attach of a transaction that has been open for longer than the delay. */
  predicate InTime(s: State, step: Step, delay: nat) {
    step.Attach? && step.key in s.uploads ==> s.now <= s.uploads[step.key].since + delay
  }

  /** Every upload reaches its commit within the delay. */
  ghost predicate Prompt(states: seq<State>, steps: seq<Step>, delay: nat) {
    |states| == |steps| + 1 && forall i :: 0 <= i < |steps| ==> InTime(states[i], steps[i], delay)
  }

  /** In use, or replaced by a transaction begun at `since` or later. */
  ghost predicate InUseSince(s: State, k: Key, since: int) {
    k in Live(s) || (k in s.retired && s.retired[k] >= since)
  }

  lemma StaysInUseSince(s: State, step: Step, k: Key, delay: nat, since: int)
    requires KeysInPhase(s) && Enabled(s, step) && InUseSince(s, k, since)
    requires InTime(s, step, delay) && s.now >= since + delay
    ensures InUseSince(Next(s, step), k, since)
  {
    hide Numbered, OrphansOf, Missing, QueryOf, BuildObjectKey, Pending, Meeting, Answer;
    var s' := Next(s, step);
    if k in Live(s) {
      var e :| e in s.photos && s.photos[e] == k;
      if e in s'.photos && s'.photos[e] == k {
        assert k in Live(s');
      }
    }
  }

  lemma StepOf(states: seq<State>, steps: seq<Step>, i: nat)
    requires IsRun(states, steps) && i + 1 < |states|
    ensures Enabled(states[i], steps[i]) && states[i + 1] == Next(states[i], steps[i])
  {
  }

  lemma {:induction false} InUseLater(states: seq<State>, steps: seq<Step>, delay: nat, i: nat, j: nat, k: Key)
    requires IsRun(states, steps) && Prompt(states, steps, delay) && i <= j < |states| && k in Live(states[i])
    ensures states[j].now >= states[i].now
    ensures InUseSince(states[j], k, states[i].now - delay)
    decreases j
  {
    if i < j {
      InUseLater(states, steps, delay, i, j - 1, k);
      assert KeysInPhase(states[j - 1]) by {
        RunKeeps(states, steps, j - 1);
      }
      StepOf(states, steps, j - 1);
      assert InTime(states[j - 1], steps[j - 1], delay);
      hide Next, Effect, Enabled, InUseSince, KeysInPhase, IsRun, Live, InTime;
      EffectKeepsHistory(states[j - 1], steps[j - 1]);
      StaysInUseSince(states[j - 1], steps[j - 1], k, delay, states[i].now - delay);
    }
  }

  /**
     A replaced photo can still be fetched for the grace period, less the time an upload may
     take from the start of its transaction to its commit: the grace counts from the start.
   */
  lemma GracePeriodIsKept(states: seq<State>, steps: seq<Step>, delay: nat, i: nat, j: nat, k: Key)
    requires IsRun(states, steps) && Prompt(states, steps, delay) && i <= j < |states|
    requires k in Live(states[i]) && k !in states[j].crossed
    requires states[j].now + delay <= states[i].now + 7 * 86400
    ensures k in states[j].objects
  {
    InUseLater(states, steps, delay, i, j, k);
    RunKeeps(states, steps, j);
  }

  /** Every photo is kept for the span after each moment of use, in runs whose uploads take at most the delay. */
  ghost predicate KeptFor(delay: nat, span: nat) {
    forall states: seq<State>, steps: seq<Step>, i: nat, j: nat, k: Key ::
      (IsRun(states, steps) && Prompt(states, steps, delay) && i <= j < |states|
       && k in Live(states[i]) && k !in states[j].crossed && states[j].now <= states[i].now + span)
      ==> k in states[j].objects
  }

  /**
     Exactly how long: photos are kept for a span after their last use if and only if the span
     and the longest upload together fit into the grace period.
   */
  lemma KeptForIffWithinGrace(delay: nat, span: nat)
    ensures KeptFor(delay, span) <==> span + delay <= 7 * 86400
  {
    if span + delay <= GRACE {
      forall states: seq<State>, steps: seq<Step>, i: nat, j: nat, k: Key |
        IsRun(states, steps) && Prompt(states, steps, delay) && i <= j < |states|
        && k in Live(states[i]) && k !in states[j].crossed && states[j].now <= states[i].now + span
        ensures k in states[j].objects
      {
        GracePeriodIsKept(states, steps, delay, i, j, k);
      }
    } else {
      var states, steps, i, k := SlowUpload(delay);
      assert states[|states| - 1].now <= states[i].now + span;
    }
  }

  lemma RunGrows(states: seq<State>, steps: seq<Step>, delay: nat, step: Step)
    returns (states': seq<State>, steps': seq<Step>)
    requires IsRun(states, steps) && Prompt(states, steps, delay)
    requires Enabled(states[|states| - 1], step) && InTime(states[|states| - 1], step, delay)
    ensures IsRun(states', steps') && Prompt(states', steps', delay)
    ensures |states'| == |states| + 1 && states'[..|states|] == states
    ensures states'[|states|] == Next(states[|states| - 1], step)
  {
    hide Enabled, Next, InTime;
    states', steps' := states + [Next(states[|states| - 1], step)], steps + [step];
  }

  /** A photo is uploaded for the entity, nothing else being under way. */
  lemma FirstUpload(e: Entity, shortId: string, delay: nat) returns (states: seq<State>, steps: seq<Step>, k: Key)
    requires ValidType(e.entityType)
    ensures BuildObjectKey(e, shortId) == Accepted(k)
    ensures IsRun(states, steps) && Prompt(states, steps, delay)
    ensures var s := states[|states| - 1];
            && s.now == 0 && s.photos == map[e := k] && s.objects == {k} && s.issued == {k} && s.uploads == map[]
            && s.rows == map[] && s.nextId == 0 && s.passes == map[] && s.crossed == {}
  {
    k := BuildObjectKey(e, shortId).value;
    states, steps := [Initial()], [];
    assert IsRun(states, steps) && Prompt(states, steps, delay);
    hide BuildObjectKey, IsRun, Prompt;
    states, steps := RunGrows(states, steps, delay, Begin(k, e, shortId));
    assert states[|states| - 1].uploads == map[k := Upload(e, false, 0)];
    states, steps := RunGrows(states, steps, delay, Put(k));
    assert states[|states| - 1].uploads == map[k := Upload(e, true, 0)];
    states, steps := RunGrows(states, steps, delay, Attach(k));
  }

  /** A second upload for the entity is ready to commit after the whole delay. */
  lemma SlowSecondUpload(e: Entity, a: string, b: string, delay: nat)
    returns (states: seq<State>, steps: seq<Step>, k: Key, next: Key)
    requires ValidType(e.entityType) && a != b && |a| == |b|
    ensures IsRun(states, steps) && Prompt(states, steps, delay) && k != next
    ensures var s := states[|states| - 1];
            && s.now == delay && s.photos == map[e := k] && k in s.objects && s.uploads == map[next := Upload(e, true, 0)]
            && s.rows == map[] && s.nextId == 0 && s.passes == map[] && s.crossed == {}
  {
    states, steps, k := FirstUpload(e, a, delay);
    next := BuildObjectKey(e, b).value;
    KeysDiffer(e, a, b);
    assert BuildObjectKey(e, b) == Accepted(next);
    hide BuildObjectKey, IsRun, Prompt, ValidType, PrefixOf;
    states, steps := RunGrows(states, steps, delay, Begin(next, e, b));
    assert states[|states| - 1].uploads == map[next := Upload(e, false, 0)];
    states, steps := RunGrows(states, steps, delay, Put(next));
    assert states[|states| - 1].uploads == map[next := Upload(e, true, 0)];
    states, steps := RunGrows(states, steps, delay, Wait(delay));
  }

  /**
     The photo of state i is in use until an upload that took the whole delay replaces it; its
     row is as old as the upload's start, and cleanup deletes it as soon as the grace is over.
   */
  lemma SlowUpload(delay: nat) returns (states: seq<State>, steps: seq<Step>, i: nat, k: Key)
    ensures IsRun(states, steps) && Prompt(states, steps, delay) && i < |states|
    ensures k in Live(states[i]) && states[i].now == delay
    ensures var t := states[|states| - 1];
            && k !in t.crossed && k !in t.objects
            && t.now == if delay > GRACE then delay else GRACE + 1
  {
    var e, next := Entity("fish", "1"), "";
    states, steps, k, next := SlowSecondUpload(e, "a", "b", delay);
    hide IsRun, Prompt;
    i := |states| - 1;
    assert e in states[i].photos && states[i].photos[e] == k;
    states, steps := RunGrows(states, steps, delay, Attach(next));
    assert states[|states| - 1].rows[0] == Orphan(k, e.entityType, 0);
    states, steps := RunGrows(states, steps, delay, Wait(if delay > GRACE then 0 else GRACE + 1 - delay));
    states, steps := RunGrows(states, steps, delay, DeleteObject(0));
  }

  lemma KeysDiffer(e: Entity, a: string, b: string)
    requires ValidType(e.entityType) && a != b && |a| == |b|
    ensures BuildObjectKey(e, a).value != BuildObjectKey(e, b).value
  {
    var prefix := PrefixOf(e.entityType).value + e.id + "/";
    var x, y := prefix + a + ".webp", prefix + b + ".webp";
    var i :| 0 <= i < |a| && a[i] != b[i];
    assert x[|prefix| + i] == a[i] && y[|prefix| + i] == b[i];
  }

  // ------------------------------------------------------------------ exactly which photos can be lost

  /** The steps lead from one state to the other. */
  ghost predicate Leads(s: State, steps: seq<Step>, t: State)
    decreases |steps|
  {
    if steps == [] then s == t
    else Enabled(s, steps[0]) && Leads(Next(s, steps[0]), steps[1..], t)
  }

  ghost predicate PointsAt(s: State, e: Entity, k: Key) {
    e in s.photos && s.photos[e] == k
  }

  /** Some continuation deletes the object while the entity still points at it. */
  ghost predicate CanBeLost(s: State, e: Entity, k: Key) {
    exists steps, t :: Leads(s, steps, t) && PointsAt(t, e, k) && k !in t.objects
  }

  /** A pass has asked for the keys of the entity's type and does not know this one. */
  ghost predicate Overlooked(s: State, e: Entity, k: Key) {
    exists pass :: pass in s.passes && s.passes[pass].stage > QueryOf(e) && k !in s.passes[pass].known
  }

  /** A row names the key, a pass is about to insert one, or a pass will when it lists the key. */
  ghost predicate Exposed(s: State, e: Entity, k: Key) {
    !Untouched(s, k) || Overlooked(s, e, k)
  }

  /** A photo that is stored and not exposed stays so as long as its entity points at it. */
  ghost predicate Sheltered(s: State, e: Entity, k: Key) {
    if PointsAt(s, e, k) then k in s.objects && !Exposed(s, e, k) else k in s.retired
  }

  lemma ShelteredByPass(s: State, step: Step, e: Entity, k: Key)
    requires KeysInPhase(s) && Sheltered(s, e, k) && Enabled(s, step) && OfPass(step)
    ensures Sheltered(Next(s, step), e, k)
  {
    RowsAfter(s, step);
    PendingAfter(s, step);
    hide Numbered, OrphansOf, Missing, Meeting, BuildObjectKey, Pending, Tracked;
  }

  lemma ShelteredByAttach(s: State, step: Step, e: Entity, k: Key)
    requires KeysInPhase(s) && Sheltered(s, e, k) && Enabled(s, step) && step.Attach?
    ensures Sheltered(Next(s, step), e, k)
  {
    RowsAfter(s, step);
    PendingAfter(s, step);
    AttachFrame(s, step.key);
    hide QueryOf, Pending, Tracked, Next, Effect, AttachTo;
  }

  lemma ShelteredByOthers(s: State, step: Step, e: Entity, k: Key)
    requires KeysInPhase(s) && Sheltered(s, e, k) && Enabled(s, step) && !OfPass(step) && !step.Attach?
    ensures Sheltered(Next(s, step), e, k)
  {
    RowsAfter(s, step);
    PendingAfter(s, step);
    hide Numbered, OrphansOf, Missing, QueryOf, Meeting, BuildObjectKey, Pending, Tracked;
  }

  lemma {:induction false} ShelteredForever(s: State, steps: seq<Step>, t: State, e: Entity, k: Key)
    requires Invariant(s) && Sheltered(s, e, k) && Leads(s, steps, t)
    ensures Sheltered(t, e, k)
    decreases |steps|
  {
    if steps != [] {
      if OfPass(steps[0]) {
        ShelteredByPass(s, steps[0], e, k);
      } else if steps[0].Attach? {
        ShelteredByAttach(s, steps[0], e, k);
      } else {
        ShelteredByOthers(s, steps[0], e, k);
      }
      StepKeeps(s, steps[0]);
      hide Invariant, Sheltered, Next, Enabled;
      ShelteredForever(Next(s, steps[0]), steps[1..], t, e, k);
    }
  }

  /** One step before a loss. */
  lemma LostAfter(s: State, step: Step, e: Entity, k: Key)
    requires Enabled(s, step) && CanBeLost(Next(s, step), e, k)
    ensures CanBeLost(s, e, k)
  {
    hide Enabled, Next, PointsAt;
    var steps, t :| Leads(Next(s, step), steps, t) && PointsAt(t, e, k) && k !in t.objects;
    var all := [step] + steps;
    assert all[0] == step && all[1..] == steps;
    assert Leads(s, all, t);
  }

  lemma AlreadyLost(s: State, e: Entity, k: Key)
    requires PointsAt(s, e, k) && k !in s.objects
    ensures CanBeLost(s, e, k)
  {
    assert Leads(s, [], s);
  }

  /** A row that names the photo deletes it once the grace period is over. */
  lemma RowLoses(s: State, id: RowId, e: Entity, k: Key)
    requires PointsAt(s, e, k) && id in s.rows && s.rows[id].oldKey == k
    ensures CanBeLost(s, e, k)
  {
    var due := s.rows[id].orphanedAt + GRACE + 1 - s.now;
    var wait := Wait(if due > 0 then due else 0);
    var waited := Next(s, wait);
    var cleaned := Next(waited, DeleteObject(id));
    AlreadyLost(cleaned, e, k);
    hide CanBeLost;
    LostAfter(waited, DeleteObject(id), e, k);
    LostAfter(s, wait, e, k);
  }

  /** A pass about to insert a row for the photo inserts it. */
  lemma PendingLoses(s: State, pass: PassId, o: Orphan, e: Entity, k: Key)
    requires KeysInPhase(s) && PointsAt(s, e, k)
    requires pass in s.passes && o in s.passes[pass].pending && o.oldKey == k
    ensures CanBeLost(s, e, k)
  {
    var pending := s.passes[pass].pending;
    var flushed := Next(s, FlushPass(pass));
    NumberedAt(s.nextId, pending);
    var i :| 0 <= i < |pending| && pending[i] == o;
    hide Numbered, CanBeLost;
    RowLoses(flushed, s.nextId + i, e, k);
    LostAfter(s, FlushPass(pass), e, k);
  }

  /** A pass that has every answer but this key lists it. */
  lemma ListingLoses(s: State, pass: PassId, e: Entity, k: Key)
    requires KeysInPhase(s) && PointsAt(s, e, k) && k in s.objects
    requires pass in s.passes && s.passes[pass].stage > QUERIES && k !in s.passes[pass].known
    ensures CanBeLost(s, e, k)
  {
    var p := s.passes[pass];
    var step := ListPage(pass, [k]);
    var listed := Next(s, step);
    KeysKeptByPass(s, step);
    assert Missing([k], p.known) == Missing([], p.known) + [k];
    var o := OrphansOf([k], p.at)[0];
    assert listed.passes[pass].pending == p.pending + [o];
    hide Missing, OrphansOf, CanBeLost, KeysInPhase;
    PendingLoses(listed, pass, o, e, k);
    LostAfter(s, step, e, k);
  }

  /** The remaining queries do not tell the pass of a key that is live and in no row. */
  lemma {:induction false} ReadingLoses(s: State, pass: PassId, e: Entity, k: Key)
    requires KeysInPhase(s) && PointsAt(s, e, k) && k in s.objects && Untouched(s, k)
    requires pass in s.passes && s.passes[pass].stage > QueryOf(e) && k !in s.passes[pass].known
    ensures CanBeLost(s, e, k)
    decreases QUERIES + 1 - s.passes[pass].stage
  {
    if s.passes[pass].stage > QUERIES {
      ListingLoses(s, pass, e, k);
    } else {
      var step := Read(pass);
      var read := Next(s, step);
      KeysKeptByPass(s, step);
      NotAnswered(s, s.passes[pass].stage, e, k);
      assert forall o :: Pending(read, o) ==> Pending(s, o);
      hide Answer, Pending, KeysInPhase, CanBeLost;
      ReadingLoses(read, pass, e, k);
      LostAfter(s, step, e, k);
    }
  }

  lemma NotAnswered(s: State, stage: nat, e: Entity, k: Key)
    requires KeysInPhase(s) && PointsAt(s, e, k) && Untouched(s, k) && QueryOf(e) < stage
    ensures k !in Answer(s, stage)
  {
  }

  /**
     Exactly which photos cleanup can delete.  In every reachable state, a stored photo can be
     lost while its entity points at it if and only if a row names its key, a pass is about to
     insert one, or a pass has asked for the keys of its type without being told of it.
   */
  lemma LostIffExposed(states: seq<State>, steps: seq<Step>, i: nat, e: Entity, k: Key)
    requires IsRun(states, steps) && i < |states|
    requires PointsAt(states[i], e, k) && k in states[i].objects
    ensures CanBeLost(states[i], e, k) <==> Exposed(states[i], e, k)
  {
    var s := states[i];
    RunKeeps(states, steps, i);
    if Exposed(s, e, k) {
      assert KeysInPhase(s);
      hide Invariant, CanBeLost, KeysInPhase;
      if id :| id in s.rows && s.rows[id].oldKey == k {
        RowLoses(s, id, e, k);
      } else if o :| Pending(s, o) && o.oldKey == k {
        var pass :| pass in s.passes && o in s.passes[pass].pending;
        PendingLoses(s, pass, o, e, k);
      } else {
        var pass :| pass in s.passes && s.passes[pass].stage > QueryOf(e) && k !in s.passes[pass].known;
        ReadingLoses(s, pass, e, k);
      }
    } else {
      hide Invariant, Exposed;
      forall rest, t | Leads(s, rest, t) && PointsAt(t, e, k)
        ensures k in t.objects
      {
        ShelteredForever(s, rest, t, e, k);
      }
    }
  }

  // ------------------------------------------------------------------ overlap

  ghost predicate Reachable(s: State) {
    exists states, steps :: IsRun(states, steps) && states[|states| - 1] == s
  }

  lemma Reach(s: State, step: Step)
    requires Reachable(s) && Enabled(s, step)
    ensures Reachable(Next(s, step))
  {
    hide Next, Enabled;
    var states, steps :| IsRun(states, steps) && states[|states| - 1] == s;
    var states', steps' := states + [Next(s, step)], steps + [step];
    assert IsRun(states', steps');
    assert states'[|states'| - 1] == Next(s, step);
  }

  /**
     The condition cannot be dropped: a pass that lists an upload before its database step
     commits registers a photo that is then in use, and cleanup deletes it after the grace period.
   */
  lemma OverlapLosesAPhoto()
    ensures exists s, e :: Reachable(s) && e in s.photos && s.photos[e] !in s.objects
  {
    var e, shortId := Entity("fish", "1"), "a";
    var k := BuildObjectKey(e, shortId).value;
    var s := ListedWhileUploading(e, shortId);
    hide Reachable, BuildObjectKey;
    NumberedAt(0, s.passes[0].pending);
    s := Reached(s, FlushPass(0));
    s := Reached(s, Attach(k));
    assert s.photos[e] == k && s.rows[0].oldKey == k && s.rows[0].orphanedAt == 0;
    s := Reached(s, Wait(GRACE + 1));
    s := Reached(s, DeleteObject(0));
    assert e in s.photos && s.photos[e] !in s.objects;
  }

  /** The pass reads its four answers before the upload commits, and lists after it has stored. */
  lemma ListedWhileUploading(e: Entity, shortId: string) returns (s: State)
    requires BuildObjectKey(e, shortId).Accepted?
    ensures Reachable(s)
    ensures var k := BuildObjectKey(e, shortId).value;
            && s.now == 0 && s.photos == map[] && s.rows == map[] && s.nextId == 0 && s.objects == {k}
            && s.uploads == map[k := Upload(e, true, 0)]
            && s.passes == map[0 := Pass(QUERIES + 1, {}, 0, [Orphan(k, TypeOfKey(k), 0)])]
  {
    var k := BuildObjectKey(e, shortId).value;
    s := Initial();
    assert Reachable(s) by {
      assert IsRun([s], []) && [s][|[s]| - 1] == s;
    }
    hide Reachable, TypeOfKey;
    s := Reached(s, Begin(k, e, shortId));
    hide BuildObjectKey;
    s := Reached(s, Put(k));
    s := Reached(s, StartPass(0));
    assert s.passes[0] == Pass(0, {}, 0, []);
    var stage := 0;
    while stage <= QUERIES
      invariant 0 <= stage <= QUERIES + 1
      invariant Reachable(s)
      invariant s.now == 0 && s.photos == map[] && s.rows == map[] && s.nextId == 0 && s.objects == {k}
      invariant s.uploads == map[k := Upload(e, true, 0)]
      invariant s.passes == map[0 := Pass(stage, {}, 0, [])]
    {
      assert Answer(s, stage) == {};
      s := Reached(s, Read(0));
      stage := stage + 1;
      assert s.passes[0] == Pass(stage, {}, 0, []);
    }
    assert Missing([k], {}) == Missing([], {}) + [k];
    s := Reached(s, ListPage(0, [k]));
    assert s.passes[0] == Pass(QUERIES + 1, {}, 0, [Orphan(k, TypeOfKey(k), 0)]);
  }

  lemma Reached(s: State, step: Step) returns (s': State)
    requires Reachable(s) && Enabled(s, step)
    ensures s' == Next(s, step) && Reachable(s')
  {
    Reach(s, step);
    s' := Next(s, step);
  }
}
