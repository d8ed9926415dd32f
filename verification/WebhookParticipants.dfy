/** The participants of a webhook, in the order their rows are locked. */
module WebhookParticipants {
  import opened Prelude
  import opened WebhookProtocol

  /** `sorted` on a set of ids: each id once, ascending. */
  method Sorted(ids: set<UserId>) returns (sorted: seq<UserId>)
    ensures Ascending(sorted)
    ensures forall u :: u in sorted <==> u in ids
  {
    sorted := [];
    var rest := ids;
    while rest != {}
      invariant Ascending(sorted)
      invariant forall u :: u in ids <==> u in sorted || u in rest
      invariant forall u, v :: u in sorted && v in rest ==> u < v
      decreases |rest|
    {
      var least := Least(rest);
      forall k | 0 <= k < |sorted|
        ensures sorted[k] < least
      {
        assert sorted[k] in sorted;
      }
      sorted := sorted + [least];
      rest := rest - {least};
    }
  }

  method Least(ids: set<UserId>) returns (least: UserId)
    requires ids != {}
    ensures least in ids && forall u :: u in ids ==> least <= u
  {
    least :| least in ids;
    var rest := ids - {least};
    while rest != {}
      invariant least in ids && rest <= ids
      invariant forall u :: u in ids ==> u in rest || least <= u
      decreases |rest|
    {
      var u :| u in rest;
      if u < least {
        least := u;
      }
      rest := rest - {u};
    }
  }

  /** `_webhook_user_ids`; a value that is empty or no UUID is None. */
  method WebhookUserIds(values: seq<Option<UserId>>) returns (ids: seq<UserId>)
    ensures Ascending(ids)
    ensures forall u :: u in ids <==> Some(u) in values
  {
    var found: set<UserId> := {};
    for i := 0 to |values|
      invariant forall u :: u in found <==> Some(u) in values[..i]
    {
      assert values[..i + 1] == values[..i] + [values[i]];
      if values[i].Some? {
        found := found + {values[i].value};
      }
    }
    assert values[..|values|] == values;
    ids := Sorted(found);
  }

  /** The participants are determined by which ids the event names, not by where it names them. */
  lemma {:induction false} AscendingIsUnique(a: seq<UserId>, b: seq<UserId>)
    requires Ascending(a) && Ascending(b) && forall u :: u in a <==> u in b
    ensures a == b
  {
    assert b == [] || b[0] in b;
    if a != [] {
      assert a[0] in a && a[0] in b;
      assert b[0] in a;
      forall u
        ensures u in a[1..] <==> u in b[1..]
      {
        TailMembers(a, u);
        TailMembers(b, u);
      }
      AscendingIsUnique(a[1..], b[1..]);
      assert a == [a[0]] + a[1..] && b == [b[0]] + b[1..];
    }
  }

  lemma TailMembers(a: seq<UserId>, u: UserId)
    requires Ascending(a) && a != []
    ensures u in a[1..] <==> u in a && u != a[0]
  {
    assert a == [a[0]] + a[1..];
  }
}
