/** The shared `jobs` table and the statements the worker threads send to it, each one atomic. */
module JobTable {
  import opened Ids
  import opened LockIds

  datatype Status = Pending | Loading | Processing | Complete | Error

  /** `lock` is the column `locked_queue_id`; "" means not locked. */
  datatype Row = Row(name: string, status: Status, lock: string)

  type Table = map<nat, Row>

  /** `WHERE status='pending' AND locked_queue_id=''` */
  predicate Claimable(row: Row) {
    row.status == Pending && row.lock == ""
  }

  function ClaimableIds(t: Table): set<nat> {
    set id | id in t && Claimable(t[id])
  }

  /** The rows the claiming UPDATE picks: the lowest claimable ids, at most `workload` of them. */
  ghost function Picked(t: Table, workload: nat): set<nat> {
    Elements(Take(ClaimableIds(t), workload))
  }

  /** `UPDATE jobs SET locked_queue_id=lock, status='loading' WHERE ... ORDER BY id LIMIT workload` */
  ghost function Claim(t: Table, lock: string, workload: nat): Table {
    map id | id in t ::
      if id in Picked(t, workload) then t[id].(status := Loading, lock := lock) else t[id]
  }

  function LockedIds(t: Table, lock: string): set<nat> {
    set id | id in t && t[id].status == Loading && t[id].lock == lock
  }

  /** `SELECT id ... WHERE status='loading' AND locked_queue_id=lock ORDER BY id LIMIT workload` */
  ghost function Select(t: Table, lock: string, workload: nat): seq<nat> {
    Take(LockedIds(t, lock), workload)
  }

  /** `UPDATE jobs SET locked_queue_id='' WHERE status!='pending' AND locked_queue_id=lock` */
  function Release(t: Table, lock: string): Table {
    map id | id in t ::
      if t[id].status != Pending && t[id].lock == lock then t[id].(lock := "") else t[id]
  }

  /** `UPDATE jobs SET status='processing' WHERE id=...` */
  function MarkProcessing(t: Table, id: nat): Table {
    if id in t then t[id := t[id].(status := Processing)] else t
  }

  /** `UPDATE jobs SET status=..., locked_queue_id='' WHERE id=...` */
  function Resolve(t: Table, id: nat, status: Status): Table {
    if id in t then t[id := t[id].(status := status, lock := "")] else t
  }

  /** `SELECT count(id) ... WHERE status='pending' AND locked_queue_id=0`: with a number MySQL compares numerically. */
  function PolledIds(t: Table): set<nat> {
    set id | id in t && t[id].status == Pending && NumericPrefix(t[id].lock) == 0
  }

  // ----- The statements, column by column -----

  /** The claiming UPDATE picks a waiting and unlocked row if fewer than `workload` such rows precede it. */
  lemma PickedExactly(t: Table, workload: nat, id: nat)
    ensures id in Picked(t, workload) <==>
      && id in t && t[id].status == Pending && t[id].lock == ""
      && |set x | x in t && t[x].status == Pending && t[x].lock == "" && x < id| < workload
  {
    TakeExactly(ClaimableIds(t), workload, id);
    assert Below(ClaimableIds(t), id) == set x | x in t && t[x].status == Pending && t[x].lock == "" && x < id;
  }

  lemma ClaimExactly(t: Table, lock: string, workload: nat, id: nat)
    requires id in t
    ensures Claim(t, lock, workload).Keys == t.Keys
    ensures var before := |set x | x in t && t[x].status == Pending && t[x].lock == "" && x < id|;
      Claim(t, lock, workload)[id] ==
      if t[id].status == Pending && t[id].lock == "" && before < workload then Row(t[id].name, Loading, lock) else t[id]
  {
    PickedExactly(t, workload, id);
  }

  /** The SELECT, ascending: rows loading under the lock with fewer than `workload` such rows before them. */
  lemma SelectExactly(t: Table, lock: string, workload: nat, id: nat)
    ensures Increasing(Select(t, lock, workload))
    ensures id in Select(t, lock, workload) <==>
      && id in t && t[id].status == Loading && t[id].lock == lock
      && |set x | x in t && t[x].status == Loading && t[x].lock == lock && x < id| < workload
  {
    TakeExactly(LockedIds(t, lock), workload, id);
    assert Below(LockedIds(t, lock), id) == set x | x in t && t[x].status == Loading && t[x].lock == lock && x < id;
  }

  /** The other UPDATEs: which columns of which rows they write. */
  lemma UpdatesExactly(t: Table, lock: string, id: nat, status: Status, x: nat)
    requires id in t && x in t
    ensures Release(t, lock).Keys == MarkProcessing(t, id).Keys == Resolve(t, id, status).Keys == t.Keys
    ensures Release(t, lock)[x] ==
      if t[x].status != Pending && t[x].lock == lock then Row(t[x].name, t[x].status, "") else t[x]
    ensures MarkProcessing(t, id)[x] == if x == id then Row(t[x].name, Processing, t[x].lock) else t[x]
    ensures Resolve(t, id, status)[x] == if x == id then Row(t[x].name, status, "") else t[x]
  {
  }

  // ----- The statements carried out -----

  ghost predicate NamesOf(t: Table, ids: seq<nat>, names: seq<string>) {
    |names| == |ids| && forall i :: 0 <= i < |ids| ==> ids[i] in t && t[ids[i]].name == names[i]
  }

  method Least(s: set<nat>) returns (m: nat)
    requires s != {}
    ensures m in s && forall x :: x in s ==> m <= x
  {
    ghost var y :| y in s;
    MinExists(s, y);
    m :| m in s && forall x :: x in s ==> m <= x;
  }

  /** The lowest `limit` of the given ids, in order. */
  method Lowest(ids: set<nat>, limit: nat) returns (q: seq<nat>)
    ensures q == Take(ids, limit)
  {
    var rest := ids;
    q := [];
    while |q| < limit && rest != {}
      invariant |q| <= limit
      invariant q + Sorted(rest) == Sorted(ids)
      decreases rest
    {
      var m := Least(rest);
      TakeOne(q, rest, m);
      q := q + [m];
      rest := rest - {m};
    }
    TakeIs(ids, limit, q, Sorted(rest));
  }

  method ApplyClaim(t: Table, lock: string, workload: nat) returns (t': Table)
    ensures t' == Claim(t, lock, workload)
  {
    var picked := Lowest(ClaimableIds(t), workload);
    t' := map id | id in t :: if id in picked then t[id].(status := Loading, lock := lock) else t[id];
  }

  method ReadNames(t: Table, ids: seq<nat>) returns (names: seq<string>)
    requires forall id :: id in ids ==> id in t
    ensures NamesOf(t, ids, names)
  {
    names := [];
    for i := 0 to |ids|
      invariant NamesOf(t, ids[..i], names)
    {
      names := names + [t[ids[i]].name];
    }
    assert ids[..|ids|] == ids;
  }
}
