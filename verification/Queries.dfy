/** The sweepers' queries: some rows, oldest first, up to a limit. */
module Queries {
  import opened Domain

  /** `rows` are the oldest of `ids` by `at`, in that order, none twice, and all of them below the limit. */
  predicate OldestOf(ids: set<Uuid>, at: Uuid -> int, limit: nat, rows: seq<Uuid>) {
    && |rows| <= limit && (forall k :: 0 <= k < |rows| ==> rows[k] in ids)
    && (forall k, l :: 0 <= k < l < |rows| ==> rows[k] != rows[l] && at(rows[k]) <= at(rows[l]))
    && (forall j :: j in ids && j !in rows ==> |rows| == limit && forall k :: 0 <= k < |rows| ==> at(rows[k]) <= at(j))
  }

  lemma OldestExists(ids: set<Uuid>, at: Uuid -> int)
    requires ids != {}
    ensures exists id :: id in ids && forall j :: j in ids ==> at(id) <= at(j)
    decreases |ids|
  {
    var x :| x in ids;
    if ids != {x} {
      assert x !in ids - {x} && ids - {x} != {};
      OldestExists(ids - {x}, at);
      var y :| y in ids - {x} && forall j :: j in ids - {x} ==> at(y) <= at(j);
      var best := if at(x) <= at(y) then x else y;
      assert forall j :: j in ids ==> at(best) <= at(j);
    }
  }

  /** ORDER BY `at` LIMIT `limit`. */
  method FindOldest(ids: set<Uuid>, at: Uuid -> int, limit: nat) returns (rows: seq<Uuid>)
    ensures OldestOf(ids, at, limit, rows)
  {
    rows := [];
    var left := ids;
    while |rows| < limit && left != {}
      invariant |rows| <= limit && left <= ids && forall k :: 0 <= k < |rows| ==> rows[k] in ids && rows[k] !in left
      invariant forall j :: j in ids ==> j in rows || j in left
      invariant forall k, l :: 0 <= k < l < |rows| ==> rows[k] != rows[l] && at(rows[k]) <= at(rows[l])
      invariant forall k, j :: 0 <= k < |rows| && j in left ==> at(rows[k]) <= at(j)
      decreases |left|
    {
      OldestExists(left, at);
      var id :| id in left && forall j :: j in left ==> at(id) <= at(j);
      rows, left := rows + [id], left - {id};
    }
  }

  lemma AtMost(rows: seq<Uuid>, ids: set<Uuid>, at: Uuid -> int, limit: nat)
    requires OldestOf(ids, at, limit, rows)
    ensures |rows| <= limit
  {}

  /** Orders in one of `statuses` that were last updated before `cutoff`. */
  function Stuck(orders: map<Uuid, Order>, statuses: set<Status>, updatedAt: Uuid -> int, cutoff: int): set<Uuid> {
    set id | id in orders && orders[id].status in statuses && updatedAt(id) < cutoff
  }
}
