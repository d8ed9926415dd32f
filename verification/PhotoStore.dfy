/**
 Photo uploads, the daily cleanup of orphaned photos and the weekly reconciliation
 (app/services/image_service.py and app/jobs/image_cleanup.py).
 */
module PhotoStore {
  import opened Prelude

  type Key = string
  type RowId = nat

  datatype Entity = Entity(entityType: string, id: string)
  datatype Orphan = Orphan(oldKey: Key, entityType: string, orphanedAt: int)
  datatype CleanupStats = CleanupStats(deletedS3: nat, failedS3: nat, deletedDb: nat, batches: nat)
  datatype ReconciliationStats = ReconciliationStats(knownKeys: nat, totalObjects: nat, newOrphaned: nat)

  /** One answer of the listing call; `next` is read only when there are more pages. */
  datatype Page = Page(contents: seq<Key>, truncated: bool, next: nat)

  const CLEANUP_BATCH_SIZE := 100
  const PAGE_SIZE := 1000
  const INSERT_BATCH_SIZE := 100

  /** The scanned prefixes, each with the type of the entities whose photos it holds. */
  const PREFIXES: seq<(string, string)> :=
    [("aquariums/", "aquarium"), ("fish/", "fish"), ("avatars/", "avatar")]

  // ------------------------------------------------------------------ keys

  predicate StartsWith(key: Key, prefix: string) {
    prefix <= key
  }

  /** PREFIX_MAP, with the separator build_object_key appends. */
  function PrefixOf(entityType: string): Option<string> {
    match entityType
    case "aquarium" => Some("aquariums/")
    case "fish" => Some("fish/")
    case "avatar" => Some("avatars/")
    case _ => None
  }

  predicate ValidType(entityType: string) {
    PrefixOf(entityType).Some?
  }

  /** `build_object_key`; `shortId` is the random part. */
  function BuildObjectKey(e: Entity, shortId: string): Outcome<Key> {
    match PrefixOf(e.entityType)
    case None => Rejected
    case Some(prefix) => Accepted(prefix + e.id + "/" + shortId + ".webp")
  }

  /** `_entity_type_from_key`. */
  method EntityTypeFromKey(key: Key) returns (entityType: string)
    ensures entityType == TypeOfKey(key)
    ensures forall i :: 0 <= i < |PREFIXES| && StartsWith(key, PREFIXES[i].0) ==> entityType == PREFIXES[i].1
    ensures (forall i :: 0 <= i < |PREFIXES| ==> !StartsWith(key, PREFIXES[i].0)) ==> entityType == "unknown"
  {
    for i := 0 to |PREFIXES|
      invariant forall j :: 0 <= j < i ==> !StartsWith(key, PREFIXES[j].0)
    {
      if StartsWith(key, PREFIXES[i].0) {
        OnePrefix(key, i);
        return PREFIXES[i].1;
      }
    }
    assert PREFIXES[0].0 == "aquariums/" && PREFIXES[1].0 == "fish/" && PREFIXES[2].0 == "avatars/";
    return "unknown";
  }

  function TypeOfKey(key: Key): string {
    if StartsWith(key, "aquariums/") then "aquarium"
    else if StartsWith(key, "fish/") then "fish"
    else if StartsWith(key, "avatars/") then "avatar"
    else "unknown"
  }

  /** No key lies under two prefixes. */
  lemma OnePrefix(key: Key, i: nat)
    requires i < |PREFIXES| && StartsWith(key, PREFIXES[i].0)
    ensures TypeOfKey(key) == PREFIXES[i].1
    ensures forall j :: 0 <= j < |PREFIXES| && StartsWith(key, PREFIXES[j].0) ==> j == i
  {
    assert "aquariums/"[1] == 'q' && "avatars/"[1] == 'v' && "fish/"[1] == 'i';
  }

  /** The type comes back from every key that is built, and reconciliation scans for the key. */
  lemma KeyRoundTrip(e: Entity, shortId: string)
    ensures BuildObjectKey(e, shortId).Accepted? <==> ValidType(e.entityType)
    ensures BuildObjectKey(e, shortId).Accepted? ==>
              var key := BuildObjectKey(e, shortId).value;
              Scanned(key) && TypeOfKey(key) == e.entityType
  {
    if ValidType(e.entityType) {
      var prefix := PrefixOf(e.entityType).value;
      var key := BuildObjectKey(e, shortId).value;
      assert key == prefix + (e.id + "/" + shortId + ".webp");
      var i := if e.entityType == "aquarium" then 0 else if e.entityType == "fish" then 1 else 2;
      OnePrefix(key, i);
    }
  }

  // ------------------------------------------------------------------ rows

  predicate Expired(rows: map<RowId, Orphan>, cutoff: int, id: RowId) {
    id in rows && rows[id].orphanedAt < cutoff
  }

  function ExpiredRows(rows: map<RowId, Orphan>, cutoff: int): set<RowId> {
    set id | id in rows && Expired(rows, cutoff, id)
  }

  /** `batch` answers "the oldest expired rows, at most 100 of them, oldest first". */
  ghost predicate OldestBatch(rows: map<RowId, Orphan>, cutoff: int, batch: seq<RowId>) {
    && Distinct(batch)
    && |batch| <= 100
    && (forall i :: 0 <= i < |batch| ==> Expired(rows, cutoff, batch[i]))
    && (forall i, j :: 0 <= i < j < |batch| ==> rows[batch[i]].orphanedAt <= rows[batch[j]].orphanedAt)
    && (forall id :: Expired(rows, cutoff, id) && id !in batch ==>
          |batch| == 100
          && forall i :: 0 <= i < |batch| ==> rows[batch[i]].orphanedAt <= rows[id].orphanedAt)
  }

  function KeysOf(rows: map<RowId, Orphan>, ids: set<RowId>): set<Key> {
    set id | id in ids && id in rows :: rows[id].oldKey
  }

  /** The rows of the attempts that succeeded; attempt k of the run succeeds iff `succeeds(k)`. */
  function Succeeded(attempts: seq<RowId>, first: nat, succeeds: nat -> bool): set<RowId> {
    set k | 0 <= k < |attempts| && succeeds(first + k) :: attempts[k]
  }

  function Successes(attempts: nat, succeeds: nat -> bool): nat {
    if attempts == 0 then 0
    else Successes(attempts - 1, succeeds) + if succeeds(attempts - 1) then 1 else 0
  }

  /** New rows take consecutive ids from `first`. */
  function Numbered(first: RowId, orphans: seq<Orphan>): map<RowId, Orphan> {
    if orphans == [] then map[]
    else
      var last := |orphans| - 1;
      Numbered(first, orphans[..last])[first + last := orphans[last]]
  }

  /** The keys of the entities of the first `n` types. */
  function KeysUpTo(photos: map<Entity, Option<Key>>, n: nat): set<Key>
    requires n <= |PREFIXES|
  {
    set e, i | e in photos && photos[e].Some? && 0 <= i < n && PREFIXES[i].1 == e.entityType :: photos[e].value
  }

  lemma KeysUpToGrows(photos: map<Entity, Option<Key>>, n: nat, found: set<Key>)
    requires n < |PREFIXES|
    requires found == set e | e in photos && photos[e].Some? && e.entityType == PREFIXES[n].1 :: photos[e].value
    ensures KeysUpTo(photos, n + 1) == KeysUpTo(photos, n) + found
  {
  }

  lemma AllTypesRead(photos: map<Entity, Option<Key>>)
    requires forall e :: e in photos ==> ValidType(e.entityType)
    ensures KeysUpTo(photos, |PREFIXES|) == set e | e in photos && photos[e].Some? :: photos[e].value
  {
    assert PREFIXES[0].1 == "aquarium" && PREFIXES[1].1 == "fish" && PREFIXES[2].1 == "avatar";
  }

  // ------------------------------------------------------------------ listings

  /** How the storage answers for each prefix: page after page. */
  type Pages = string -> seq<seq<Key>>

  function Flatten(pages: seq<seq<Key>>): seq<Key> {
    if pages == [] then [] else Flatten(pages[..|pages| - 1]) + pages[|pages| - 1]
  }

  /** Every key listed under the first `n` prefixes, in the order it is listed. */
  function Listed(pages: Pages, n: nat): seq<Key>
    requires n <= |PREFIXES|
  {
    if n == 0 then [] else Listed(pages, n - 1) + Flatten(pages(PREFIXES[n - 1].0))
  }

  /** The keys that are not known, in order. */
  function Missing(keys: seq<Key>, known: set<Key>): seq<Key> {
    if keys == [] then []
    else
      var last := keys[|keys| - 1];
      Missing(keys[..|keys| - 1], known) + if last in known then [] else [last]
  }

  function OrphansOf(keys: seq<Key>, now: int): seq<Orphan> {
    seq(|keys|, i requires 0 <= i < |keys| => Orphan(keys[i], TypeOfKey(keys[i]), now))
  }

  /** A storage nobody writes meanwhile answers each prefix with its stored keys, each once. */
  ghost predicate Quiescent(pages: Pages, objects: set<Key>) {
    forall i :: 0 <= i < |PREFIXES| ==>
      var prefix := PREFIXES[i].0;
      && pages(prefix) != []
      && (forall p :: p in pages(prefix) ==> |p| <= PAGE_SIZE)
      && Distinct(Flatten(pages(prefix)))
      && forall key :: key in Flatten(pages(prefix)) <==> key in objects && StartsWith(key, prefix)
  }

  predicate Scanned(key: Key) {
    StartsWith(key, "aquariums/") || StartsWith(key, "fish/") || StartsWith(key, "avatars/")
  }

  // ------------------------------------------------------------------ reconciliation is exact

  lemma {:induction false} MissingJoin(a: seq<Key>, b: seq<Key>, known: set<Key>)
    ensures Missing(a + b, known) == Missing(a, known) + Missing(b, known)
  {
    if b == [] {
      assert a + b == a;
    } else {
      var rest := b[..|b| - 1];
      assert (a + b)[..|a + b| - 1] == a + rest;
      MissingJoin(a, rest, known);
    }
  }

  lemma {:induction false} MissingMembers(keys: seq<Key>, known: set<Key>)
    ensures forall k :: k in Missing(keys, known) <==> k in keys && k !in known
    ensures Distinct(keys) ==> Distinct(Missing(keys, known))
  {
    if keys != [] {
      var rest := keys[..|keys| - 1];
      assert keys == rest + [keys[|keys| - 1]];
      MissingMembers(rest, known);
    }
  }

  lemma ListedMembers(pages: Pages, objects: set<Key>)
    requires Quiescent(pages, objects)
    ensures var listed := Listed(pages, |PREFIXES|);
            Distinct(listed) && forall k :: k in listed <==> k in objects && Scanned(k)
  {
    var a, b, c := Flatten(pages("aquariums/")), Flatten(pages("fish/")), Flatten(pages("avatars/"));
    assert Listed(pages, |PREFIXES|) == a + b + c by {
      assert Listed(pages, 0) == [];
      assert Listed(pages, 1) == a;
      assert Listed(pages, 2) == a + b;
    }
    OnePrefixListed(pages, objects, 0);
    OnePrefixListed(pages, objects, 1);
    OnePrefixListed(pages, objects, 2);
    hide Quiescent, Flatten, Listed, Distinct;
    forall k
      ensures k in b ==> k !in a
      ensures k in c ==> k !in a + b
    {
      Disjoint(k);
    }
    hide StartsWith;
    DistinctJoin(a, b);
    DistinctJoin(a + b, c);
  }

  lemma Disjoint(key: Key)
    ensures StartsWith(key, "fish/") ==> !StartsWith(key, "aquariums/")
    ensures StartsWith(key, "avatars/") ==> !StartsWith(key, "aquariums/") && !StartsWith(key, "fish/")
  {
    assert "aquariums/"[1] == 'q' && "avatars/"[1] == 'v' && "fish/"[1] == 'i';
  }

  lemma OnePrefixListed(pages: Pages, objects: set<Key>, i: nat)
    requires i < |PREFIXES| && Quiescent(pages, objects)
    ensures var listed := Flatten(pages(PREFIXES[i].0));
            && Distinct(listed)
            && forall k :: k in listed <==> k in objects && StartsWith(k, PREFIXES[i].0)
  {
  }

  /**
     With the storage at rest, the keys one pass inserts are exactly the stored keys under the
     three prefixes that no entity refers to and no row tracks, each once.
   */
  lemma ReconciliationIsExact(pages: Pages, objects: set<Key>, known: set<Key>)
    requires Quiescent(pages, objects)
    ensures var inserted := Missing(Listed(pages, |PREFIXES|), known);
            && Distinct(inserted)
            && forall k :: k in inserted <==> k in objects && Scanned(k) && k !in known
  {
    ListedMembers(pages, objects);
    MissingMembers(Listed(pages, |PREFIXES|), known);
  }

  /** A second pass over the same storage inserts nothing, however either listing was paged. */
  lemma SecondPassInsertsNothing(first: Pages, second: Pages, objects: set<Key>, known: set<Key>)
    requires Quiescent(first, objects) && Quiescent(second, objects)
    ensures var inserted := Missing(Listed(first, |PREFIXES|), known);
            Missing(Listed(second, |PREFIXES|), known + set k | k in inserted) == []
  {
    var inserted := Missing(Listed(first, |PREFIXES|), known);
    var known2 := known + set k | k in inserted;
    var again := Missing(Listed(second, |PREFIXES|), known2);
    ReconciliationIsExact(first, objects, known);
    ReconciliationIsExact(second, objects, known2);
    Inhabited(again);
  }

  lemma {:induction false} NumberedJoin(first: RowId, a: seq<Orphan>, b: seq<Orphan>)
    ensures Numbered(first, a + b) == Numbered(first, a) + Numbered(first + |a|, b)
  {
    if b == [] {
      assert a + b == a;
    } else {
      var rest := b[..|b| - 1];
      assert (a + b)[..|a + b| - 1] == a + rest;
      NumberedJoin(first, a, rest);
    }
  }

  lemma {:induction false} NumberedAt(first: RowId, orphans: seq<Orphan>)
    ensures forall id :: id in Numbered(first, orphans) <==> first <= id < first + |orphans|
    ensures forall i :: 0 <= i < |orphans| ==>
              first + i in Numbered(first, orphans) && Numbered(first, orphans)[first + i] == orphans[i]
  {
    if orphans != [] {
      NumberedAt(first, orphans[..|orphans| - 1]);
    }
  }

  /** The row at an id names the key, has its prefix's type, and is dated to the moment. */
  ghost predicate Dated(rows: map<RowId, Orphan>, id: RowId, key: Key, now: int) {
    && id in rows && rows[id].oldKey == key && rows[id].orphanedAt == now
    && (StartsWith(key, "aquariums/") ==> rows[id].entityType == "aquarium")
    && (StartsWith(key, "fish/") ==> rows[id].entityType == "fish")
    && (StartsWith(key, "avatars/") ==> rows[id].entityType == "avatar")
  }

  lemma InsertedAreDated(rows0: map<RowId, Orphan>, first: RowId, keys: seq<Key>, now: int)
    requires forall id :: id in rows0 ==> id < first
    ensures var rows := rows0 + Numbered(first, OrphansOf(keys, now));
            && (forall i :: 0 <= i < |keys| ==> Dated(rows, first + i, keys[i], now))
            && (forall id :: id in rows0 ==> id in rows && rows[id] == rows0[id])
            && forall id :: id in rows ==> id in rows0 || first <= id < first + |keys|
  {
    NumberedAt(first, OrphansOf(keys, now));
    hide Numbered;
    forall i | 0 <= i < |keys|
      ensures Dated(rows0 + Numbered(first, OrphansOf(keys, now)), first + i, keys[i], now)
    {
      var found := OrphansOf(keys, now);
      assert Numbered(first, found)[first + i] == found[i];
      hide OrphansOf;
      Disjoint(keys[i]);
    }
  }

  /** What a pass has done when it has seen `keys`: all missing ones are inserted or pending. */
  ghost predicate Registered(rows0: map<RowId, Orphan>, first: RowId, rows: map<RowId, Orphan>, nextId: RowId,
                             pending: seq<Orphan>, keys: seq<Key>, known: set<Key>, now: int)
  {
    HalfFlushed(rows0, first, rows, nextId, pending, OrphansOf(Missing(keys, known), now))
  }

  ghost predicate HalfFlushed(rows0: map<RowId, Orphan>, first: RowId, rows: map<RowId, Orphan>, nextId: RowId,
                              pending: seq<Orphan>, found: seq<Orphan>)
  {
    var flushed := |found| - |pending|;
    && flushed >= 0
    && pending == found[flushed..]
    && nextId == first + flushed
    && rows == rows0 + Numbered(first, found[..flushed])
  }

  lemma NothingRegistered(rows: map<RowId, Orphan>, first: RowId, known: set<Key>, now: int)
    ensures Registered(rows, first, rows, first, [], [], known, now)
  {
    assert OrphansOf([], now) == [] && rows == rows + Numbered(first, []);
  }

  lemma NothingListed(pages: Pages)
    ensures Listed(pages, 0) == [] && Flatten([]) == []
  {
  }

  lemma OnePageMore(pages: Pages, i: nat, seen: nat)
    requires i < |PREFIXES| && seen < |pages(PREFIXES[i].0)|
    ensures var all := pages(PREFIXES[i].0);
            && Listed(pages, i) + Flatten(all[..seen + 1]) == Listed(pages, i) + Flatten(all[..seen]) + all[seen]
            && (seen + 1 == |all| ==> Listed(pages, i + 1) == Listed(pages, i) + Flatten(all[..seen + 1]))
  {
    var all := pages(PREFIXES[i].0);
    assert all[..seen + 1][..seen] == all[..seen];
    assert all[..|all|] == all;
  }

  lemma OrphansJoin(a: seq<Key>, b: seq<Key>, now: int)
    ensures OrphansOf(a + b, now) == OrphansOf(a, now) + OrphansOf(b, now)
  {
    hide TypeOfKey;
  }

  lemma RegisteredSees(rows0: map<RowId, Orphan>, first: RowId, rows: map<RowId, Orphan>, nextId: RowId,
                       pending: seq<Orphan>, keys: seq<Key>, known: set<Key>, now: int, page: seq<Key>)
    requires Registered(rows0, first, rows, nextId, pending, keys, known, now)
    ensures Registered(rows0, first, rows, nextId, pending + OrphansOf(Missing(page, known), now),
                       keys + page, known, now)
  {
    hide OrphansOf, Missing, HalfFlushed;
    var found, more := OrphansOf(Missing(keys, known), now), OrphansOf(Missing(page, known), now);
    MissingJoin(keys, page, known);
    OrphansJoin(Missing(keys, known), Missing(page, known), now);
    HalfFlushedSees(rows0, first, rows, nextId, pending, found, more);
  }

  lemma HalfFlushedSees(rows0: map<RowId, Orphan>, first: RowId, rows: map<RowId, Orphan>, nextId: RowId,
                        pending: seq<Orphan>, found: seq<Orphan>, more: seq<Orphan>)
    requires HalfFlushed(rows0, first, rows, nextId, pending, found)
    ensures HalfFlushed(rows0, first, rows, nextId, pending + more, found + more)
  {
    hide Numbered;
    var flushed := |found| - |pending|;
    assert (found + more)[flushed..] == pending + more;
    assert (found + more)[..flushed] == found[..flushed];
  }

  lemma RegisteredFlushes(rows0: map<RowId, Orphan>, first: RowId, rows: map<RowId, Orphan>, nextId: RowId,
                          pending: seq<Orphan>, keys: seq<Key>, known: set<Key>, now: int)
    requires Registered(rows0, first, rows, nextId, pending, keys, known, now)
    ensures Registered(rows0, first, rows + Numbered(nextId, pending), nextId + |pending|, [], keys, known, now)
  {
    hide OrphansOf, Missing, Numbered;
    var found := OrphansOf(Missing(keys, known), now);
    var flushed := |found| - |pending|;
    NumberedJoin(first, found[..flushed], pending);
    assert found[..flushed] + pending == found;
    assert found[..|found|] == found && found[|found|..] == [];
    assert rows0 + Numbered(first, found) == rows + Numbered(nextId, pending);
  }

  lemma RegisteredAll(rows0: map<RowId, Orphan>, first: RowId, rows: map<RowId, Orphan>, nextId: RowId,
                      keys: seq<Key>, known: set<Key>, now: int)
    requires Registered(rows0, first, rows, nextId, [], keys, known, now)
    requires forall id :: id in rows0 ==> id < first
    ensures var inserted := Missing(keys, known);
            && rows == rows0 + Numbered(first, OrphansOf(inserted, now))
            && nextId == first + |inserted|
            && KeysOf(rows, rows.Keys) == KeysOf(rows0, rows0.Keys) + set k | k in inserted
  {
    hide Missing, Numbered;
    var found := OrphansOf(Missing(keys, known), now);
    assert found[..|found|] == found;
    TrackedAfter(rows0, first, found);
    var inserted := Missing(keys, known);
    assert forall o :: o in found ==> o.oldKey in inserted;
    forall k | k in inserted
      ensures exists o :: o in found && o.oldKey == k
    {
      var i :| 0 <= i < |inserted| && inserted[i] == k;
      assert found[i] in found;
    }
  }

  lemma TrackedAfter(rows: map<RowId, Orphan>, first: RowId, found: seq<Orphan>)
    requires forall id :: id in rows ==> id < first
    ensures var all := rows + Numbered(first, found);
            KeysOf(all, all.Keys) == KeysOf(rows, rows.Keys) + set o | o in found :: o.oldKey
  {
    NumberedAt(first, found);
    hide Numbered;
    var all := rows + Numbered(first, found);
    forall k | k in KeysOf(rows, rows.Keys)
      ensures k in KeysOf(all, all.Keys)
    {
      var id :| id in rows && rows[id].oldKey == k;
      assert id in all && all[id].oldKey == k;
    }
    forall o | o in found
      ensures o.oldKey in KeysOf(all, all.Keys)
    {
      var i :| 0 <= i < |found| && found[i] == o;
      assert first + i in all && all[first + i] == o;
    }
    forall k | k in KeysOf(all, all.Keys)
      ensures k in KeysOf(rows, rows.Keys) || exists o :: o in found && o.oldKey == k
    {
      var id :| id in all && all[id].oldKey == k;
      if id in Numbered(first, found) {
        assert all[first + (id - first)] == found[id - first];
      } else {
        assert id in rows;
      }
    }
  }

  // ------------------------------------------------------------------ cleanup in batches

  /** The last batch held the oldest expired rows, and no attempt of it succeeded. */
  ghost predicate WholeBatchFailed(rows: map<RowId, Orphan>, cutoff: int, log: seq<RowId>, succeeds: nat -> bool) {
    exists first :: 0 <= first < |log|
      && OldestBatch(rows, cutoff, log[first..])
      && forall k :: first <= k < |log| ==> !succeeds(k)
  }

  /** What the batches so far did: each row whose delete succeeded is gone, with its object. */
  ghost predicate Cleaned(rows0: map<RowId, Orphan>, objects0: set<Key>, rows: map<RowId, Orphan>, objects: set<Key>,
                          cutoff: int, log: seq<RowId>, succeeds: nat -> bool)
  {
    var gone := Succeeded(log, 0, succeeds);
    && (forall k :: 0 <= k < |log| ==> Expired(rows0, cutoff, log[k]))
    && rows == rows0 - gone
    && objects == objects0 - KeysOf(rows0, gone)
    && |gone| == Successes(|log|, succeeds)
  }

  lemma SucceededGrows(attempts: seq<RowId>, i: nat, first: nat, succeeds: nat -> bool)
    requires i < |attempts|
    ensures Succeeded(attempts[..i + 1], first, succeeds)
         == Succeeded(attempts[..i], first, succeeds) + if succeeds(first + i) then {attempts[i]} else {}
  {
    var grown := Succeeded(attempts[..i + 1], first, succeeds);
    forall id | id in Succeeded(attempts[..i], first, succeeds)
      ensures id in grown
    {
      var k :| 0 <= k < i && succeeds(first + k) && attempts[..i][k] == id;
      assert attempts[..i + 1][k] == id;
    }
    if succeeds(first + i) {
      assert attempts[..i + 1][i] == attempts[i];
    }
  }

  lemma SucceededJoin(log: seq<RowId>, batch: seq<RowId>, succeeds: nat -> bool)
    ensures Succeeded(log + batch, 0, succeeds) == Succeeded(log, 0, succeeds) + Succeeded(batch, |log|, succeeds)
  {
    var all := log + batch;
    forall id
      ensures id in Succeeded(all, 0, succeeds)
          <==> id in Succeeded(log, 0, succeeds) || id in Succeeded(batch, |log|, succeeds)
    {
      if id in Succeeded(log, 0, succeeds) {
        var k :| 0 <= k < |log| && succeeds(0 + k) && log[k] == id;
        assert all[k] == id;
      }
      if id in Succeeded(batch, |log|, succeeds) {
        var k :| 0 <= k < |batch| && succeeds(|log| + k) && batch[k] == id;
        assert all[|log| + k] == id && succeeds(0 + (|log| + k));
      }
      if id in Succeeded(all, 0, succeeds) {
        var k :| 0 <= k < |all| && succeeds(0 + k) && all[k] == id;
        if k < |log| {
          assert log[k] == id;
        } else {
          assert batch[k - |log|] == id && succeeds(|log| + (k - |log|));
        }
      }
    }
  }

  /** One more batch, fetched from the rows that are left. */
  lemma CleanedGrows(rows0: map<RowId, Orphan>, objects0: set<Key>, rows: map<RowId, Orphan>, objects: set<Key>,
                     cutoff: int, log: seq<RowId>, batch: seq<RowId>, succeeds: nat -> bool)
    requires Cleaned(rows0, objects0, rows, objects, cutoff, log, succeeds)
    requires OldestBatch(rows, cutoff, batch)
    requires |Succeeded(batch, |log|, succeeds)| + Successes(|log|, succeeds) == Successes(|log| + |batch|, succeeds)
    ensures var gone := Succeeded(batch, |log|, succeeds);
            Cleaned(rows0, objects0, rows - gone, objects - KeysOf(rows, gone), cutoff, log + batch, succeeds)
  {
    hide Succeeded, Successes, KeysOf, OldestBatch;
    var before, gone := Succeeded(log, 0, succeeds), Succeeded(batch, |log|, succeeds);
    SucceededJoin(log, batch, succeeds);
    BatchRows(rows, cutoff, batch, |log|, succeeds);
    KeysOfJoin(rows0, before, gone);
    assert |before + gone| == |before| + |gone|;
    assert rows - gone == rows0 - (before + gone);
    forall k | 0 <= k < |log + batch|
      ensures Expired(rows0, cutoff, (log + batch)[k])
    {
      assert (log + batch)[k] == if k < |log| then log[k] else batch[k - |log|];
    }
  }

  lemma NothingCleaned(rows: map<RowId, Orphan>, objects: set<Key>, cutoff: int, succeeds: nat -> bool)
    ensures Cleaned(rows, objects, rows, objects, cutoff, [], succeeds) && Successes(0, succeeds) == 0
  {
    assert Succeeded([], 0, succeeds) == {};
    assert KeysOf(rows, {}) == {};
  }

  /** Only rows of the batch can go. */
  lemma BatchRows(rows: map<RowId, Orphan>, cutoff: int, batch: seq<RowId>, first: nat, succeeds: nat -> bool)
    requires OldestBatch(rows, cutoff, batch)
    ensures Succeeded(batch, first, succeeds) <= rows.Keys
    ensures Distinct(batch)
    ensures forall i :: 0 <= i < |batch| ==> Expired(rows, cutoff, batch[i]) && batch[i] in rows
  {
  }

  lemma Nothing(rows: map<RowId, Orphan>, first: nat, succeeds: nat -> bool)
    ensures Succeeded([], first, succeeds) == {}
    ensures KeysOf(rows, {}) == {}
  {
  }

  lemma OneMoreAttempt(attempt: nat, succeeds: nat -> bool)
    ensures Successes(attempt + 1, succeeds) == Successes(attempt, succeeds) + if succeeds(attempt) then 1 else 0
  {
  }

  lemma KeysOfOneMore(rows: map<RowId, Orphan>, ids: set<RowId>, id: RowId)
    requires id in rows
    ensures KeysOf(rows, ids + {id}) == KeysOf(rows, ids) + {rows[id].oldKey}
  {
    assert id in ids + {id};
  }

  lemma KeysOfJoin(rows: map<RowId, Orphan>, a: set<RowId>, b: set<RowId>)
    requires b <= (rows - a).Keys
    ensures a !! b
    ensures KeysOf(rows, a + b) == KeysOf(rows, a) + KeysOf(rows - a, b)
  {
    forall k
      ensures k in KeysOf(rows, a + b) <==> k in KeysOf(rows, a) || k in KeysOf(rows - a, b)
    {
      if k in KeysOf(rows, a + b) {
        var id :| id in a + b && id in rows && rows[id].oldKey == k;
        if id !in a {
          assert id in rows - a && (rows - a)[id].oldKey == k;
        }
      }
      if k in KeysOf(rows - a, b) {
        var id :| id in b && id in rows - a && (rows - a)[id].oldKey == k;
        assert id in a + b && rows[id].oldKey == k;
      }
    }
  }

  lemma CleanupOutcome(rows0: map<RowId, Orphan>, objects0: set<Key>, rows: map<RowId, Orphan>, objects: set<Key>,
                       cutoff: int, log: seq<RowId>, succeeds: nat -> bool)
    requires Cleaned(rows0, objects0, rows, objects, cutoff, log, succeeds)
    requires ExpiredRows(rows, cutoff) == {} || WholeBatchFailed(rows, cutoff, log, succeeds)
    ensures forall k :: 0 <= k < |log| ==> Expired(rows0, cutoff, log[k])
    ensures rows == rows0 - Succeeded(log, 0, succeeds)
    ensures objects == objects0 - KeysOf(rows0, Succeeded(log, 0, succeeds))
    ensures Successes(|log|, succeeds) == |Succeeded(log, 0, succeeds)|
    ensures (forall k :: 0 <= k < |log| ==> succeeds(k)) ==> ExpiredRows(rows, cutoff) == {}
  {
    hide Succeeded, KeysOf, ExpiredRows, Expired, OldestBatch, Successes;
    if WholeBatchFailed(rows, cutoff, log, succeeds) {
      var first :| 0 <= first < |log| && forall k :: first <= k < |log| ==> !succeeds(k);
      assert !succeeds(first);
    }
  }

  lemma {:induction false} AtMostTheBatch(batch: seq<RowId>, first: nat, succeeds: nat -> bool)
    ensures |Succeeded(batch, first, succeeds)| <= |batch|
  {
    if batch != [] {
      AtMostTheBatch(batch[..|batch| - 1], first, succeeds);
      SucceededGrows(batch, |batch| - 1, first, succeeds);
      assert batch[..|batch| - 1 + 1] == batch;
    }
  }

  lemma NoneSucceeded(rows: map<RowId, Orphan>, cutoff: int, log: seq<RowId>, batch: seq<RowId>, succeeds: nat -> bool)
    requires OldestBatch(rows, cutoff, batch) && batch != []
    requires Succeeded(batch, |log|, succeeds) == {}
    ensures WholeBatchFailed(rows, cutoff, log + batch, succeeds)
  {
    hide OldestBatch;
    forall k | |log| <= k < |log + batch|
      ensures !succeeds(k)
    {
      assert batch[k - |log|] !in Succeeded(batch, |log|, succeeds);
      assert |log| + (k - |log|) == k;
    }
    assert (log + batch)[|log|..] == batch;
  }

  lemma EmptyBatch(rows: map<RowId, Orphan>, cutoff: int)
    requires OldestBatch(rows, cutoff, [])
    ensures ExpiredRows(rows, cutoff) == {}
  {
  }

  /** The termination measure of the job: a batch that frees a row leaves fewer expired rows. */
  lemma FewerExpired(rows: map<RowId, Orphan>, cutoff: int, batch: seq<RowId>, first: nat, succeeds: nat -> bool)
    requires OldestBatch(rows, cutoff, batch)
    requires Succeeded(batch, first, succeeds) != {}
    ensures |ExpiredRows(rows - Succeeded(batch, first, succeeds), cutoff)| < |ExpiredRows(rows, cutoff)|
  {
    var gone := Succeeded(batch, first, succeeds);
    var id :| id in gone;
    assert Expired(rows, cutoff, id);
    hide OldestBatch, Succeeded;
    assert id in ExpiredRows(rows, cutoff) && id !in ExpiredRows(rows - gone, cutoff);
    assert forall r :: Expired(rows - gone, cutoff, r) ==> Expired(rows, cutoff, r);
    ProperSubsetIsSmaller(ExpiredRows(rows - gone, cutoff), ExpiredRows(rows, cutoff));
  }

  // ------------------------------------------------------------------ the two stores

  class PhotoStore {
    var objects: set<Key>
    var photos: map<Entity, Option<Key>>
    var rows: map<RowId, Orphan>
    var nextId: RowId

    predicate Valid()
      reads this
    {
      && (forall id :: id in rows ==> id < nextId)
      && forall e :: e in photos ==> ValidType(e.entityType)
    }

    function LiveKeys(): set<Key>
      reads this
    {
      set e | e in photos && photos[e].Some? :: photos[e].value
    }

    function TrackedKeys(): set<Key>
      reads this
    {
      KeysOf(rows, rows.Keys)
    }

    constructor ()
      ensures Valid()
      ensures objects == {} && photos == map[] && rows == map[]
    {
      objects, photos, rows, nextId := {}, map[], map[], 0;
    }

    /** The row's time is the column's default, the start of the transaction. */
    method RegisterOrphaned(oldKey: Key, entityType: string, started: int)
      requires Valid()
      modifies `rows, `nextId
      ensures Valid()
      ensures old(nextId) !in old(rows)
      ensures rows == old(rows)[old(nextId) := Orphan(oldKey, entityType, started)]
      ensures nextId == old(nextId) + 1
    {
      rows := rows[nextId := Orphan(oldKey, entityType, started)];
      nextId := nextId + 1;
    }

    /**
     Points an entity at a new key.  The key it pointed at becomes tracked in the same
     transaction, so no key drops out of sight of both stores.
     */
    method UpdateEntityPhotoKey(e: Entity, newKey: Key, started: int) returns (r: Outcome<()>)
      requires Valid()
      modifies `photos, `rows, `nextId
      ensures Valid()
      ensures r.Accepted? <==> ValidType(e.entityType) && e in old(photos)
      ensures r.Rejected? ==> photos == old(photos)
      ensures r.Accepted? ==> photos == old(photos)[e := Some(newKey)]
      ensures old(nextId) !in old(rows)
      ensures if r.Accepted? && old(photos[e]).Some? && old(photos[e]).value != ""
              then rows == old(rows)[old(nextId) := Orphan(old(photos[e]).value, e.entityType, started)]
                   && nextId == old(nextId) + 1
              else rows == old(rows) && nextId == old(nextId)
      ensures r.Accepted? ==>
                LiveKeys() + TrackedKeys() - {""} == old(LiveKeys() + TrackedKeys()) + {newKey} - {""}
    {
      if !ValidType(e.entityType) || e !in photos {
        return Rejected;
      }
      var oldKey := photos[e];
      photos := photos[e := Some(newKey)];
      if oldKey.Some? && oldKey.value != "" {
        RegisterOrphaned(oldKey.value, e.entityType, started);
      }
      ghost var before, after := old(photos), photos;
      assert forall f :: f in after <==> f in before;
      assert e in after && after[e] == Some(newKey);
      assert forall f :: f in before && f != e ==> after[f] == before[f];
      forall k | k in old(TrackedKeys())
        ensures k in TrackedKeys()
      {
        var id :| id in old(rows) && old(rows)[id].oldKey == k;
        assert id in rows && rows[id].oldKey == k;
      }
      if oldKey.Some? && oldKey.value != "" {
        assert rows[old(nextId)].oldKey == oldKey.value;
      }
      return Accepted(());
    }

    /**
     `upload_image`: the object is stored before the database is touched, so an upload that
     fails changes the database not at all and leaves at most its own object behind.
     */
    method UploadImage(e: Entity, allowed: bool, validImage: bool, shortId: string,
                       stores: bool, commits: bool, started: int) returns (r: Outcome<Key>)
      requires Valid()
      modifies this
      ensures Valid()
      ensures r.Accepted? <==>
              ValidType(e.entityType) && allowed && validImage && stores && commits && e in old(photos)
      ensures r.Rejected? ==> photos == old(photos)
      ensures old(nextId) !in old(rows)
      ensures if r.Accepted? && old(photos[e]).Some? && old(photos[e]).value != ""
              then rows == old(rows)[old(nextId) := Orphan(old(photos[e]).value, e.entityType, started)]
                   && nextId == old(nextId) + 1
              else rows == old(rows) && nextId == old(nextId)
      ensures objects == if ValidType(e.entityType) && allowed && validImage && stores
                         then old(objects) + {BuildObjectKey(e, shortId).value} else old(objects)
      ensures r.Accepted? ==>
                && r == BuildObjectKey(e, shortId)
                && TypeOfKey(r.value) == e.entityType
                && r.value in objects
                && photos == old(photos)[e := Some(r.value)]
                && LiveKeys() + TrackedKeys() - {""} == old(LiveKeys() + TrackedKeys()) + {r.value} - {""}
    {
      if !ValidType(e.entityType) || !allowed || !validImage {
        return Rejected;
      }
      var key := BuildObjectKey(e, shortId);
      KeyRoundTrip(e, shortId);
      if !stores {
        return Rejected;
      }
      objects := objects + {key.value};
      if !commits {
        return Rejected;
      }
      var updated := UpdateEntityPhotoKey(e, key.value, started);
      if updated.Rejected? {
        return Rejected;
      }
      return key;
    }

    // ---------------------------------------------------------------- cleanup

    /** The batch query: any answer that is oldest first; ties come in any order. */
    method FetchExpired(cutoff: int) returns (batch: seq<RowId>)
      ensures OldestBatch(rows, cutoff, batch)
    {
      batch := [];
      var rest := ExpiredRows(rows, cutoff);
      while rest != {} && |batch| < CLEANUP_BATCH_SIZE
        invariant Distinct(batch) && |batch| <= CLEANUP_BATCH_SIZE
        invariant forall i :: 0 <= i < |batch| ==> Expired(rows, cutoff, batch[i]) && batch[i] !in rest
        invariant forall i, j :: 0 <= i < j < |batch| ==>
                    rows[batch[i]].orphanedAt <= rows[batch[j]].orphanedAt
        invariant forall id :: id in rest ==> Expired(rows, cutoff, id)
        invariant forall id :: Expired(rows, cutoff, id) ==> id in batch || id in rest
        invariant forall i, id :: 0 <= i < |batch| && id in rest ==>
                    rows[batch[i]].orphanedAt <= rows[id].orphanedAt
        decreases |rest|
      {
        var oldest := Oldest(rest);
        batch := batch + [oldest];
        rest := rest - {oldest};
      }
    }

    method Oldest(ids: set<RowId>) returns (oldest: RowId)
      requires ids != {} && forall id :: id in ids ==> id in rows
      ensures oldest in ids
      ensures forall id :: id in ids ==> rows[oldest].orphanedAt <= rows[id].orphanedAt
    {
      oldest :| oldest in ids;
      var rest := ids - {oldest};
      while rest != {}
        invariant oldest in ids && rest <= ids
        invariant forall id :: id in ids ==>
                    id in rest || rows[oldest].orphanedAt <= rows[id].orphanedAt
        decreases |rest|
      {
        var id :| id in rest;
        if rows[id].orphanedAt < rows[oldest].orphanedAt {
          oldest := id;
        }
        rest := rest - {id};
      }
    }

    /** Deletes the objects of one batch; `first` counts the attempts made before it. */
    method DeleteObjects(batch: seq<RowId>, first: nat, succeeds: nat -> bool) returns (succeeded: set<RowId>)
      requires Distinct(batch)
      requires forall i :: 0 <= i < |batch| ==> batch[i] in rows
      modifies `objects
      ensures succeeded == Succeeded(batch, first, succeeds)
      ensures objects == old(objects) - KeysOf(rows, succeeded)
      ensures |succeeded| + Successes(first, succeeds) == Successes(first + |batch|, succeeds)
    {
      hide Succeeded, KeysOf, Successes;
      succeeded := {};
      Nothing(rows, first, succeeds);
      for i := 0 to |batch|
        invariant succeeded == Succeeded(batch[..i], first, succeeds)
        invariant forall k :: i <= k < |batch| ==> batch[k] !in succeeded
        invariant objects == old(objects) - KeysOf(rows, succeeded)
        invariant |succeeded| + Successes(first, succeeds) == Successes(first + i, succeeds)
      {
        SucceededGrows(batch, i, first, succeeds);
        OneMoreAttempt(first + i, succeeds);
        if succeeds(first + i) {
          objects := objects - {rows[batch[i]].oldKey};
          KeysOfOneMore(rows, succeeded, batch[i]);
          succeeded := succeeded + {batch[i]};
        }
      }
      assert batch[..|batch|] == batch;
    }

    /**
     `image_cleanup_job`, for any pattern of delete failures: attempt k succeeds iff
     `succeeds(k)`, and `log` is the row of each attempt.
     */
    method ImageCleanupJob(cutoff: int, succeeds: nat -> bool)
      returns (stats: CleanupStats, ghost log: seq<RowId>)
      requires Valid()
      modifies `objects, `rows
      ensures Valid()
      ensures forall k :: 0 <= k < |log| ==> Expired(old(rows), cutoff, log[k])
      ensures rows == old(rows) - Succeeded(log, 0, succeeds)
      ensures objects == old(objects) - KeysOf(old(rows), Succeeded(log, 0, succeeds))
      ensures stats.deletedS3 == stats.deletedDb == Successes(|log|, succeeds)
      ensures stats.deletedDb == |Succeeded(log, 0, succeeds)|
      ensures stats.deletedS3 + stats.failedS3 == |log|
      ensures ExpiredRows(rows, cutoff) == {} || WholeBatchFailed(rows, cutoff, log, succeeds)
      ensures (forall k :: 0 <= k < |log| ==> succeeds(k)) ==> ExpiredRows(rows, cutoff) == {}
    {
      hide Succeeded, KeysOf, ExpiredRows, Expired, OldestBatch, WholeBatchFailed, Cleaned, Distinct, Successes, ValidType, PrefixOf;
      stats := CleanupStats(0, 0, 0, 0);
      log := [];
      ghost var rows0, objects0 := rows, objects;
      NothingCleaned(rows, objects, cutoff, succeeds);
      while true
        invariant Valid()
        invariant Cleaned(rows0, objects0, rows, objects, cutoff, log, succeeds)
        invariant stats.deletedS3 + stats.failedS3 == |log|
        invariant stats.deletedS3 == stats.deletedDb == Successes(|log|, succeeds)
        decreases |ExpiredRows(rows, cutoff)|
      {
        var batch := FetchExpired(cutoff);
        if batch == [] {
          EmptyBatch(rows, cutoff);
          break;
        }
        ghost var before, stored := rows, objects;
        BatchRows(rows, cutoff, batch, |log|, succeeds);
        var succeeded := DeleteObjects(batch, stats.deletedS3 + stats.failedS3, succeeds);
        AtMostTheBatch(batch, |log|, succeeds);
        stats := CleanupStats(
          stats.deletedS3 + |succeeded|,
          stats.failedS3 + (|batch| - |succeeded|),
          stats.deletedDb + |succeeded|,
          stats.batches + 1);
        if succeeded != {} {
          rows := rows - succeeded;
        }
        assert rows == before - succeeded;
        CleanedGrows(rows0, objects0, before, stored, cutoff, log, batch, succeeds);
        if succeeded == {} {
          NoneSucceeded(rows, cutoff, log, batch, succeeds);
          log := log + batch;
          break;
        }
        FewerExpired(before, cutoff, batch, |log|, succeeds);
        log := log + batch;
      }
      CleanupOutcome(rows0, objects0, rows, objects, cutoff, log, succeeds);
    }

    // ---------------------------------------------------------------- reconciliation

    /** One query for each type of entity, then one for the tracked keys. */
    method KnownKeys() returns (known: set<Key>)
      requires Valid()
      ensures known == LiveKeys() + TrackedKeys()
    {
      known := {};
      for i := 0 to |PREFIXES|
        invariant known == KeysUpTo(photos, i)
      {
        var found := set e | e in photos && photos[e].Some? && e.entityType == PREFIXES[i].1 :: photos[e].value;
        KeysUpToGrows(photos, i, found);
        known := known + found;
      }
      AllTypesRead(photos);
      known := known + set id | id in rows :: rows[id].oldKey;
    }

    /** One call of the storage: the page after the token. */
    method ListObjects(pages: Pages, prefix: string, token: Option<nat>) returns (response: Page)
      requires (if token.Some? then token.value else 0) < |pages(prefix)|
      ensures var n := if token.Some? then token.value else 0;
              && response.contents == pages(prefix)[n]
              && (response.truncated <==> n + 1 < |pages(prefix)|)
              && (response.truncated ==> response.next == n + 1)
    {
      var n := if token.Some? then token.value else 0;
      response := Page(pages(prefix)[n], n + 1 < |pages(prefix)|, n + 1);
    }

    /** The orphans of one page: what it lists and the snapshot does not know. */
    method Unreferenced(contents: seq<Key>, known: set<Key>, now: int) returns (found: seq<Orphan>)
      ensures found == OrphansOf(Missing(contents, known), now)
      ensures forall o :: o in found ==>
                o.oldKey in contents && o.oldKey !in known && o.orphanedAt == now && o.entityType == TypeOfKey(o.oldKey)
      ensures forall k :: k in contents && k !in known ==> Orphan(k, TypeOfKey(k), now) in found
    {
      found := [];
      for i := 0 to |contents|
        invariant found == OrphansOf(Missing(contents[..i], known), now)
        invariant forall o :: o in found ==>
                    o.oldKey in contents && o.oldKey !in known && o.orphanedAt == now && o.entityType == TypeOfKey(o.oldKey)
        invariant forall k :: k in contents[..i] && k !in known ==> Orphan(k, TypeOfKey(k), now) in found
      {
        assert contents[..i + 1][..i] == contents[..i];
        if contents[i] !in known {
          var entityType := EntityTypeFromKey(contents[i]);
          found := found + [Orphan(contents[i], entityType, now)];
        }
      }
      assert contents[..|contents|] == contents;
    }

    method Flush(pending: seq<Orphan>)
      requires Valid()
      modifies `rows, `nextId
      ensures Valid()
      ensures rows == old(rows) + Numbered(old(nextId), pending)
      ensures nextId == old(nextId) + |pending|
    {
      for i := 0 to |pending|
        invariant Valid() && nextId == old(nextId) + i
        invariant rows == old(rows) + Numbered(old(nextId), pending[..i])
      {
        assert pending[..i + 1][..i] == pending[..i];
        rows := rows[nextId := pending[i]];
        nextId := nextId + 1;
      }
      assert pending[..|pending|] == pending;
    }

    /**
     `s3_reconciliation_job` over any answers of the storage: it inserts one row for each
     listed key that was neither referenced nor tracked when it began, in listing order, and
     counts them.
     */
    method S3ReconciliationJob(pages: Pages, now: int) returns (stats: ReconciliationStats)
      requires Valid()
      requires forall i :: 0 <= i < |PREFIXES| ==> pages(PREFIXES[i].0) != []
      modifies `rows, `nextId
      ensures Valid()
      ensures var known := old(LiveKeys() + TrackedKeys());
              var listed := Listed(pages, |PREFIXES|);
              var inserted := Missing(listed, known);
              && rows == old(rows) + Numbered(old(nextId), OrphansOf(inserted, now))
              && nextId == old(nextId) + |inserted|
              && TrackedKeys() == old(TrackedKeys()) + (set k | k in inserted)
              && stats == ReconciliationStats(|known|, |listed|, |inserted|)
      ensures var inserted := Missing(Listed(pages, |PREFIXES|), old(LiveKeys() + TrackedKeys()));
              && (forall i :: 0 <= i < |inserted| ==> Dated(rows, old(nextId) + i, inserted[i], now))
              && (forall id :: id in old(rows) ==> id in rows && rows[id] == old(rows)[id])
              && (forall id :: id in rows ==> id in old(rows) || old(nextId) <= id < old(nextId) + |inserted|)
    {
      hide Missing, OrphansOf, Registered, KeysOf, Numbered, ValidType, Listed, Flatten, Dated;
      var known := KnownKeys();
      ghost var rows0, first, listed: seq<Key> := rows, nextId, [];
      var total, inserted := 0, 0;
      var pending: seq<Orphan> := [];
      NothingRegistered(rows, first, known, now);
      NothingListed(pages);
      for i := 0 to |PREFIXES|
        invariant Valid() && nextId == first + inserted
        invariant Registered(rows0, first, rows, nextId, pending, listed, known, now)
        invariant listed == Listed(pages, i) && total == |listed|
      {
        var prefix := PREFIXES[i].0;
        var token := None;
        ghost var seen := 0;
        assert pages(prefix)[..0] == [];
        while true
          invariant Valid() && nextId == first + inserted
          invariant 0 <= seen < |pages(prefix)|
          invariant seen == if token.Some? then token.value else 0
          invariant Registered(rows0, first, rows, nextId, pending, listed, known, now)
          invariant listed == Listed(pages, i) + Flatten(pages(prefix)[..seen]) && total == |listed|
          decreases |pages(prefix)| - seen
        {
          var response := ListObjects(pages, prefix, token);
          total := total + |response.contents|;
          var found := Unreferenced(response.contents, known, now);
          RegisteredSees(rows0, first, rows, nextId, pending, listed, known, now, response.contents);
          pending := pending + found;
          listed := listed + response.contents;
          if |pending| >= INSERT_BATCH_SIZE {
            RegisteredFlushes(rows0, first, rows, nextId, pending, listed, known, now);
            Flush(pending);
            inserted := inserted + |pending|;
            pending := [];
          }
          OnePageMore(pages, i, seen);
          seen := seen + 1;
          if response.truncated {
            token := Some(response.next);
          } else {
            break;
          }
        }
      }
      if pending != [] {
        RegisteredFlushes(rows0, first, rows, nextId, pending, listed, known, now);
        Flush(pending);
        inserted := inserted + |pending|;
      }
      RegisteredAll(rows0, first, rows, nextId, listed, known, now);
      InsertedAreDated(rows0, first, Missing(listed, known), now);
      stats := ReconciliationStats(|known|, total, inserted);
    }
  }
}
