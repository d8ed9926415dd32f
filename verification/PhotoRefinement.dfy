/**
 The methods of the photo stores take steps of the interleaved machine: what each leaves in
 the stores is what a sequence of steps leaves, so the theorems over runs speak of them.
 */
module PhotoRefinement {
  import opened Prelude
  import opened PhotoStore
  import opened PhotoRuns
  import opened PhotoTheorems

  function PhotosOf(photos: map<Entity, Option<Key>>): map<Entity, Key> {
    map e | e in photos && photos[e].Some? :: photos[e].value
  }

  /** The stores hold what the state of the machine holds. */
  ghost predicate Mirrors(store: PhotoStore, s: State)
    reads store
  {
    && store.objects == s.objects
    && PhotosOf(store.photos) == s.photos
    && store.rows == s.rows
    && store.nextId == s.nextId
  }

  lemma Mirrored(store: PhotoStore, s: State)
    requires store.objects == s.objects && PhotosOf(store.photos) == s.photos
    requires store.rows == s.rows && store.nextId == s.nextId
    ensures Mirrors(store, s)
  {
  }

  lemma Unmirrored(store: PhotoStore, s: State)
    requires Mirrors(store, s)
    ensures store.objects == s.objects && PhotosOf(store.photos) == s.photos
    ensures store.rows == s.rows && store.nextId == s.nextId
  {
  }

  lemma NoSteps(s: State)
    ensures Leads(s, [], s)
  {
  }

  lemma {:induction false} OneMore(s: State, steps: seq<Step>, t: State, step: Step)
    requires Leads(s, steps, t) && Enabled(t, step)
    ensures Leads(s, steps + [step], Next(t, step))
    decreases |steps|
  {
    hide Next, Enabled;
    var longer := steps + [step];
    if steps == [] {
      assert longer[1..] == [];
      assert Leads(Next(t, step), [], Next(t, step));
    } else {
      OneMore(Next(s, steps[0]), steps[1..], t, step);
      assert longer[1..] == steps[1..] + [step];
    }
  }

  /** An upload begins, stores, and after a while attaches or is abandoned. */
  function UploadSteps(e: Entity, key: Key, shortId: string, stored: bool, took: nat, attached: bool): seq<Step> {
    [Begin(key, e, shortId)] + (if stored then [Put(key)] else [])
    + [Wait(took), if attached then Attach(key) else Abandon(key)]
  }

  lemma UploadLeads(s: State, e: Entity, key: Key, shortId: string, stored: bool, took: nat, attached: bool)
    returns (t: State)
    requires BuildObjectKey(e, shortId) == Accepted(key) && key !in s.issued && key !in s.uploads
    requires attached ==> stored
    ensures Leads(s, UploadSteps(e, key, shortId, stored, took, attached), t)
    ensures t.now == s.now + took
    ensures t.objects == if stored then s.objects + {key} else s.objects
    ensures t.photos == if attached then s.photos[e := key] else s.photos
    ensures attached && e in s.photos ==>
              && t.rows == s.rows[s.nextId := Orphan(s.photos[e], e.entityType, s.now)]
              && t.nextId == s.nextId + 1
    ensures !attached || e !in s.photos ==> t.rows == s.rows && t.nextId == s.nextId
  {
    hide BuildObjectKey, Leads, Next, Enabled;
    var waiting := UploadWaits(s, e, key, shortId, stored, took);
    var before := [Begin(key, e, shortId)] + (if stored then [Put(key)] else []) + [Wait(took)];
    var last := if attached then Attach(key) else Abandon(key);
    EndOnce(waiting, key, attached);
    OneMore(s, before, waiting, last);
    t := Next(waiting, last);
    assert UploadSteps(e, key, shortId, stored, took, attached) == before + [last];
  }

  /** The upload up to its end. */
  lemma UploadWaits(s: State, e: Entity, key: Key, shortId: string, stored: bool, took: nat) returns (t: State)
    requires BuildObjectKey(e, shortId) == Accepted(key) && key !in s.issued
    ensures Leads(s, [Begin(key, e, shortId)] + (if stored then [Put(key)] else []) + [Wait(took)], t)
    ensures t.now == s.now + took && t.photos == s.photos && t.rows == s.rows && t.nextId == s.nextId
    ensures t.objects == if stored then s.objects + {key} else s.objects
    ensures key in t.uploads && t.uploads[key] == PhotoRuns.Upload.Upload(e, stored, s.now)
  {
    NoSteps(s);
    hide BuildObjectKey, Leads, Meeting;
    OneMore(s, [], s, Begin(key, e, shortId));
    t := Next(s, Begin(key, e, shortId));
    var steps := [Begin(key, e, shortId)];
    assert [] + [Begin(key, e, shortId)] == steps;
    if stored {
      OneMore(s, steps, t, Put(key));
      t := Next(t, Put(key));
      steps := steps + [Put(key)];
    }
    assert steps == [Begin(key, e, shortId)] + (if stored then [Put(key)] else []);
    OneMore(s, steps, t, Wait(took));
    t := Next(t, Wait(took));
  }

  lemma EndOnce(s: State, key: Key, attached: bool)
    requires key in s.uploads && (attached ==> s.uploads[key].stored)
    ensures var step := if attached then Attach(key) else Abandon(key);
            var u := s.uploads[key];
            && Enabled(s, step)
            && var t := Next(s, step);
               && t.now == s.now && t.objects == s.objects
               && t.photos == (if attached then s.photos[u.entity := key] else s.photos)
               && (if attached && u.entity in s.photos
                   then t.rows == s.rows[s.nextId := Replaced(s, u)] && t.nextId == s.nextId + 1
                   else t.rows == s.rows && t.nextId == s.nextId)
  {
    hide Meeting;
  }

  lemma PhotosOfUpdate(photos: map<Entity, Option<Key>>, e: Entity)
    ensures forall k :: PhotosOf(photos[e := Some(k)]) == PhotosOf(photos)[e := k]
    ensures e in photos && photos[e].Some? ==> e in PhotosOf(photos) && PhotosOf(photos)[e] == photos[e].value
    ensures e in PhotosOf(photos) ==> e in photos && photos[e].Some?
    ensures forall f :: f in photos && photos[f].Some? ==> f in PhotosOf(photos)
  {
  }

  lemma KeysMirrored(store: PhotoStore, s: State)
    requires Mirrors(store, s)
    ensures store.LiveKeys() == Live(s) && store.TrackedKeys() == Tracked(s)
  {
    forall k
      ensures k in store.LiveKeys() <==> k in Live(s)
    {
      if k in store.LiveKeys() {
        var e :| e in store.photos && store.photos[e].Some? && store.photos[e].value == k;
        assert e in s.photos && s.photos[e] == k;
      }
    }
  }

  /**
   `upload_image` with a fresh key, in a transaction that starts in state s and takes its time
   until it commits or fails.
   */
  method Upload(store: PhotoStore, e: Entity, allowed: bool, validImage: bool, shortId: string,
                stores: bool, commits: bool, started: int, ghost took: nat, ghost s: State)
    returns (r: Outcome<Key>, ghost steps: seq<Step>, ghost t: State)
    requires started == s.now && store.Valid() && Mirrors(store, s)
    requires forall f :: f in s.photos ==> s.photos[f] != ""
    requires BuildObjectKey(e, shortId).Accepted? ==>
               BuildObjectKey(e, shortId).value !in s.issued && BuildObjectKey(e, shortId).value !in s.uploads
    modifies store
    ensures store.Valid() && Mirrors(store, t) && Leads(s, steps, t)
    ensures r.Accepted? ==> steps == UploadSteps(e, r.value, shortId, true, took, true) && t.now == started + took
  {
    steps, t := [], s;
    hide *;
    NoSteps(s);
    Unmirrored(store, s);
    PhotosOfUpdate(store.photos, e);
    KeyRoundTrip(e, shortId);
    r := store.UploadImage(e, allowed, validImage, shortId, stores, commits, started);
    if ValidType(e.entityType) && allowed && validImage {
      ghost var key := BuildObjectKey(e, shortId).value;
      steps := UploadSteps(e, key, shortId, stores, took, r.Accepted?);
      t := UploadLeads(s, e, key, shortId, stores, took, r.Accepted?);
    }
    Mirrored(store, t);
  }

  // ------------------------------------------------------------------ cleanup

  /** One step for each attempt that succeeded, in order. */
  function DeleteSteps(log: seq<RowId>, succeeds: nat -> bool): seq<Step> {
    if log == [] then []
    else
      var last := |log| - 1;
      DeleteSteps(log[..last], succeeds) + if succeeds(last) then [DeleteObject(log[last])] else []
  }

  function CleanupSteps(log: seq<RowId>, succeeds: nat -> bool): seq<Step> {
    DeleteSteps(log, succeeds) + [RemoveRows(Succeeded(log, 0, succeeds))]
  }

  lemma DeleteOnce(s: State, row: RowId)
    requires Expired(s.rows, s.now - GRACE, row)
    ensures Enabled(s, DeleteObject(row))
    ensures var t := Next(s, DeleteObject(row));
            && t.objects == s.objects - {s.rows[row].oldKey} && t.cleared == s.cleared + {row}
            && t.now == s.now && t.photos == s.photos && t.rows == s.rows && t.nextId == s.nextId
  {
  }

  lemma RemoveOnce(s: State, ids: set<RowId>)
    requires ids <= s.cleared
    ensures Enabled(s, RemoveRows(ids))
    ensures var t := Next(s, RemoveRows(ids));
            t.objects == s.objects && t.photos == s.photos && t.rows == s.rows - ids && t.nextId == s.nextId
  {
  }

  lemma {:induction false} DeletesLead(s: State, log: seq<RowId>, succeeds: nat -> bool) returns (t: State)
    requires forall i :: 0 <= i < |log| ==> Expired(s.rows, s.now - GRACE, log[i])
    ensures Leads(s, DeleteSteps(log, succeeds), t)
    ensures var gone := Succeeded(log, 0, succeeds);
            && t.objects == s.objects - KeysOf(s.rows, gone)
            && t.cleared == s.cleared + gone
    ensures t.now == s.now && t.photos == s.photos && t.rows == s.rows && t.nextId == s.nextId
  {
    hide Succeeded, Leads, KeysOf, Next, Enabled;
    if log == [] {
      t := s;
      NoSteps(s);
      Nothing(s.rows, 0, succeeds);
      assert Succeeded(log, 0, succeeds) == {} && s.objects - {} == s.objects;
    } else {
      var last := |log| - 1;
      assert log[..last + 1] == log;
      t := DeletesLead(s, log[..last], succeeds);
      SucceededGrows(log, last, 0, succeeds);
      if succeeds(last) {
        KeysOfOneMore(s.rows, Succeeded(log[..last], 0, succeeds), log[last]);
        DeleteOnce(t, log[last]);
        OneMore(s, DeleteSteps(log[..last], succeeds), t, DeleteObject(log[last]));
        t := Next(t, DeleteObject(log[last]));
        assert DeleteSteps(log, succeeds) == DeleteSteps(log[..last], succeeds) + [DeleteObject(log[last])];
      } else {
        assert Succeeded(log, 0, succeeds) == Succeeded(log[..last], 0, succeeds);
        assert DeleteSteps(log, succeeds) == DeleteSteps(log[..last], succeeds);
      }
    }
  }

  lemma CleanupLeads(s: State, log: seq<RowId>, succeeds: nat -> bool) returns (t: State)
    requires forall i :: 0 <= i < |log| ==> Expired(s.rows, s.now - GRACE, log[i])
    ensures Leads(s, CleanupSteps(log, succeeds), t)
    ensures var gone := Succeeded(log, 0, succeeds);
            && t.objects == s.objects - KeysOf(s.rows, gone) && t.rows == s.rows - gone
            && t.photos == s.photos && t.nextId == s.nextId
  {
    hide Leads, Succeeded, KeysOf, DeleteSteps, Next, Enabled, Expired;
    var deleted := DeletesLead(s, log, succeeds);
    var remove := RemoveRows(Succeeded(log, 0, succeeds));
    RemoveOnce(deleted, Succeeded(log, 0, succeeds));
    OneMore(s, DeleteSteps(log, succeeds), deleted, remove);
    t := Next(deleted, remove);
  }

  /** `image_cleanup_job` at its cutoff. */
  method Cleanup(store: PhotoStore, succeeds: nat -> bool, now: int, ghost s: State)
    returns (stats: CleanupStats, ghost log: seq<RowId>, ghost t: State)
    requires now == s.now && store.Valid() && Mirrors(store, s)
    modifies store
    ensures store.Valid() && Mirrors(store, t) && Leads(s, CleanupSteps(log, succeeds), t)
  {
    hide *;
    Unmirrored(store, s);
    stats, log := store.ImageCleanupJob(now - GRACE, succeeds);
    t := CleanupLeads(s, log, succeeds);
    Mirrored(store, t);
  }

  // ------------------------------------------------------------------ reconciliation

  /** A whole pass: four queries, the listing, the rows. */
  function PassSteps(pass: PassId, listed: seq<Key>): seq<Step> {
    [StartPass(pass), Read(pass), Read(pass), Read(pass), Read(pass), ListPage(pass, listed), FlushPass(pass), StopPass(pass)]
  }

  /** The four answers together are the keys entities point at and the tracked keys. */
  lemma AnswersAreKnown(s: State)
    ensures Answer(s, 0) + Answer(s, 1) + Answer(s, 2) + Answer(s, 3) == Live(s) + Tracked(s)
  {
    forall k
      ensures k in Answer(s, 0) + Answer(s, 1) + Answer(s, 2) <==> k in Live(s)
    {
      if k in Live(s) {
        var e :| e in s.photos && s.photos[e] == k;
        assert k in Answer(s, QueryOf(e));
      }
    }
  }

  /** Query number `i` asks for the keys of one type, in the order of the prefixes. */
  lemma AnswerIsOneType(s: State, i: nat)
    requires i < |PREFIXES| && forall e :: e in s.photos ==> ValidType(e.entityType)
    ensures Answer(s, i) == set e | e in s.photos && e.entityType == PREFIXES[i].1 :: s.photos[e]
  {
    assert PREFIXES[0].1 == "aquarium" && PREFIXES[1].1 == "fish" && PREFIXES[2].1 == "avatar";
    forall e | e in s.photos
      ensures QueryOf(e) == i <==> e.entityType == PREFIXES[i].1
    {
    }
  }

  lemma ReadOnce(s: State, pass: PassId)
    requires pass in s.passes && s.passes[pass].stage <= QUERIES
    ensures Enabled(s, Read(pass))
    ensures var t, p := Next(s, Read(pass)), s.passes[pass];
            && t.now == s.now && t.objects == s.objects && t.photos == s.photos && t.rows == s.rows && t.nextId == s.nextId
            && t.passes == s.passes[pass := Pass(p.stage + 1, p.known + Answer(s, p.stage), s.now, p.pending)]
  {
    hide Answer, Meeting;
  }

  lemma StopOnce(s: State, pass: PassId)
    requires pass in s.passes
    ensures Enabled(s, StopPass(pass))
    ensures var t := Next(s, StopPass(pass));
            t.now == s.now && t.objects == s.objects && t.photos == s.photos && t.rows == s.rows && t.nextId == s.nextId
  {
  }

  lemma StartOnce(s: State, pass: PassId)
    requires pass !in s.passes
    ensures Enabled(s, StartPass(pass))
    ensures var t := Next(s, StartPass(pass));
            && t.now == s.now && t.objects == s.objects && t.photos == s.photos && t.rows == s.rows && t.nextId == s.nextId
            && t.passes == s.passes[pass := Pass(0, {}, s.now, [])]
  {
  }

  lemma SameAnswer(s: State, t: State, stage: nat)
    requires t.photos == s.photos && t.rows == s.rows
    ensures Answer(t, stage) == Answer(s, stage)
  {
  }

  lemma AllAnswered(s: State)
    ensures Answered(s, QUERIES + 1) == Live(s) + Tracked(s)
  {
    AnswersAreKnown(s);
    hide Answer, Live, Tracked;
    assert Answered(s, 1) == Answer(s, 0);
    assert Answered(s, 2) == Answered(s, 1) + Answer(s, 1);
  }

  lemma QueriesLead(s: State, pass: PassId, n: nat) returns (t: State)
    requires pass !in s.passes && n <= QUERIES + 1
    ensures Leads(s, PassSteps(pass, [])[..n + 1], t)
    ensures t.now == s.now && t.objects == s.objects && t.photos == s.photos && t.rows == s.rows && t.nextId == s.nextId
    ensures t.passes == s.passes[pass := Pass(n, Answered(s, n), s.now, [])]
  {
    var steps := PassSteps(pass, []);
    NoSteps(s);
    hide Leads, Next, Enabled, Answer;
    if n == 0 {
      StartOnce(s, pass);
      OneMore(s, [], s, StartPass(pass));
      t := Next(s, StartPass(pass));
      assert steps[..1] == [] + [StartPass(pass)];
    } else {
      t := QueriesLead(s, pass, n - 1);
      SameAnswer(s, t, n - 1);
      ReadOnce(t, pass);
      OneMore(s, steps[..n], t, Read(pass));
      t := Next(t, Read(pass));
      assert steps[..n + 1] == steps[..n] + [Read(pass)];
    }
  }

  /** What the first `n` queries tell. */
  function Answered(s: State, n: nat): set<Key> {
    if n == 0 then {} else Answered(s, n - 1) + Answer(s, n - 1)
  }

  lemma PassLeads(s: State, pass: PassId, listed: seq<Key>) returns (t: State)
    requires pass !in s.passes && forall k :: k in listed ==> k in s.objects
    ensures Leads(s, PassSteps(pass, listed), t)
    ensures t.now == s.now && t.objects == s.objects && t.photos == s.photos
    ensures var inserted := OrphansOf(Missing(listed, Live(s) + Tracked(s)), s.now);
            t.rows == s.rows + Numbered(s.nextId, inserted) && t.nextId == s.nextId + |inserted|
  {
    AllAnswered(s);
    hide Leads, Next, Enabled, Answered, Answer, Missing, OrphansOf, Numbered, Live, Tracked;
    var queried := QueriesLead(s, pass, QUERIES + 1);
    t := ListedInserts(queried, pass, listed);
    var steps := PassSteps(pass, [])[..QUERIES + 2];
    TwoMore(s, steps, queried, ListPage(pass, listed), FlushPass(pass));
    StopOnce(t, pass);
    OneMore(s, steps + [ListPage(pass, listed), FlushPass(pass)], t, StopPass(pass));
    assert steps + [ListPage(pass, listed), FlushPass(pass)] + [StopPass(pass)] == PassSteps(pass, listed);
    t := Next(t, StopPass(pass));
  }

  lemma TwoMore(s: State, steps: seq<Step>, t: State, first: Step, second: Step)
    requires Leads(s, steps, t) && Enabled(t, first) && Enabled(Next(t, first), second)
    ensures Leads(s, steps + [first, second], Next(Next(t, first), second))
  {
    hide Leads, Next, Enabled;
    OneMore(s, steps, t, first);
    OneMore(s, steps + [first], Next(t, first), second);
    assert steps + [first] + [second] == steps + [first, second];
  }

  lemma ListedInserts(s: State, pass: PassId, listed: seq<Key>) returns (t: State)
    requires pass in s.passes && s.passes[pass].stage > QUERIES && s.passes[pass].pending == []
    requires forall k :: k in listed ==> k in s.objects
    ensures Enabled(s, ListPage(pass, listed))
    ensures Enabled(Next(s, ListPage(pass, listed)), FlushPass(pass))
    ensures t == Next(Next(s, ListPage(pass, listed)), FlushPass(pass)) && pass in t.passes
    ensures t.now == s.now && t.objects == s.objects && t.photos == s.photos
    ensures var inserted := OrphansOf(Missing(listed, s.passes[pass].known), s.passes[pass].at);
            t.rows == s.rows + Numbered(s.nextId, inserted) && t.nextId == s.nextId + |inserted|
  {
    hide Missing, OrphansOf, Numbered;
    var inserted := OrphansOf(Missing(listed, s.passes[pass].known), s.passes[pass].at);
    assert [] + inserted == inserted;
    t := Next(Next(s, ListPage(pass, listed)), FlushPass(pass));
  }

  lemma PagesAnswered(pages: Pages, objects: set<Key>)
    requires Quiescent(pages, objects)
    ensures forall i :: 0 <= i < |PREFIXES| ==> pages(PREFIXES[i].0) != []
  {
  }

  lemma OrphansCount(keys: seq<Key>, now: int)
    ensures |OrphansOf(keys, now)| == |keys|
  {
  }

  /** `s3_reconciliation_job` over listings of stored keys, with nothing between its steps. */
  method Reconcile(store: PhotoStore, pages: Pages, now: int, pass: PassId, ghost s: State)
    returns (stats: ReconciliationStats, ghost t: State)
    requires now == s.now && store.Valid() && Mirrors(store, s) && pass !in s.passes
    requires Quiescent(pages, store.objects)
    modifies store
    ensures store.Valid() && Mirrors(store, t) && Leads(s, PassSteps(pass, Listed(pages, |PREFIXES|)), t)
  {
    PagesAnswered(pages, store.objects);
    hide *;
    Unmirrored(store, s);
    KeysMirrored(store, s);
    ListedMembers(pages, store.objects);
    OrphansCount(Missing(Listed(pages, |PREFIXES|), Live(s) + Tracked(s)), now);
    stats := store.S3ReconciliationJob(pages, now);
    t := PassLeads(s, pass, Listed(pages, |PREFIXES|));
    Mirrored(store, t);
  }
}
