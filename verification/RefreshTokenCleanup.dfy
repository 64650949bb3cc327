/** The batch loop of the cleanup job over the session rows. */
module RefreshTokenCleanup {
  import opened Common
  import opened SessionTables

  const BATCH_SIZE: nat := 1000
  const MAX_BATCHES_PER_RUN: nat := 20

  ghost function PrunableIds(rows: map<RowId, Row>, now: int): set<RowId> {
    set id | id in rows && Prunable(rows[id], now)
  }

  /** One page of candidates: up to BATCH_SIZE prunable rows, fewer only when there are no more. */
  method FindCandidates(rows: map<RowId, Row>, now: int) returns (page: set<RowId>)
    ensures page <= PrunableIds(rows, now)
    ensures |page| <= BATCH_SIZE
    ensures |page| < BATCH_SIZE ==> page == PrunableIds(rows, now)
  {
    var rest := set id | id in rows && Prunable(rows[id], now);
    page := {};
    while |page| < BATCH_SIZE && rest != {}
      invariant page + rest == PrunableIds(rows, now) && page !! rest && |page| <= BATCH_SIZE
      decreases |rest|
    {
      var id :| id in rest;
      rest := rest - {id};
      page := page + {id};
    }
  }

  /** `leaseHeld[i]` answers the i-th question whether this process still holds the job lease.
      Whatever happens to the lease, only prunable rows go; with the lease kept, either every
      prunable row is gone or the run stopped at its cap. */
  method SweepSessions(rows: map<RowId, Row>, now: int, leaseHeld: nat -> bool)
    returns (left: map<RowId, Row>, count: nat, capped: bool)
    ensures left.Keys <= rows.Keys && (forall id | id in left :: left[id] == rows[id])
    ensures rows.Keys - left.Keys <= PrunableIds(rows, now)
    ensures count == |rows| - |left|
    ensures (forall i: nat :: leaseHeld(i)) && !capped ==> left.Keys == rows.Keys - PrunableIds(rows, now)
    ensures capped ==> count == MAX_BATCHES_PER_RUN * BATCH_SIZE
  {
    left, count, capped := rows, 0, false;
    var batch, asked := 0, 0;
    while batch < MAX_BATCHES_PER_RUN
      invariant 0 <= batch <= MAX_BATCHES_PER_RUN
      invariant left.Keys <= rows.Keys && (forall id | id in left :: left[id] == rows[id])
      invariant rows.Keys - left.Keys <= PrunableIds(rows, now)
      invariant count == |rows| - |left|
      invariant count == batch * BATCH_SIZE
      invariant capped <==> batch == MAX_BATCHES_PER_RUN
    {
      var held := leaseHeld(asked);
      asked := asked + 1;
      if !held {
        break;
      }
      var candidates := FindCandidates(left, now);
      if candidates == {} {
        break;
      }
      held := leaseHeld(asked);
      asked := asked + 1;
      if !held {
        break;
      }
      // the delete checks the predicate again on each candidate
      var kept := map id | id in left && !(id in candidates && Prunable(left[id], now)) :: left[id];
      assert kept.Keys == left.Keys - candidates;
      assert |kept.Keys| == |left.Keys| - |candidates|;
      count := count + |candidates|;
      left := kept;
      if |candidates| < BATCH_SIZE {
        break;
      }
      capped := batch == MAX_BATCHES_PER_RUN - 1;
      batch := batch + 1;
    }
    if (forall i: nat :: leaseHeld(i)) && !capped {
      assert PrunableIds(left, now) == {};
      assert left.Keys == rows.Keys - PrunableIds(rows, now) by {
        forall id | id in rows.Keys - left.Keys ensures id in PrunableIds(rows, now) {}
        forall id | id in left.Keys ensures id !in PrunableIds(rows, now) {
          assert id in PrunableIds(rows, now) ==> id in PrunableIds(left, now);
        }
      }
    }
  }
}
