/** Guarantees one might expect of a provenance ledger that the modelled
    store does NOT give: status monotonicity, ordered timestamps, a bound on
    the recorded weight, unique ids, validated requests. Each lemma exhibits
    the behaviour the store actually has. */
module LedgerGaps {
  import opened Wrappers
  import opened Strings
  import opened SupplyChain
  import opened Ledger
  import opened MockBatches

  /** A `PROCESSING_*` action on an exported batch moves its status back to
      processing: the status is not monotonic. */
  lemma StatusCanMoveBackward(store: seq<Batch>, i: nat, u: StatusUpdateData, now: string)
    requires IsFirstMatch(store, u.batchId, i)
    requires store[i].status == Exported && u.action == "PROCESSING_STARTED"
    ensures UpdateBatchStatus(store, u, now).result.Success?
    ensures UpdateBatchStatus(store, u, now).result.value.status == Processing
    ensures Rank(UpdateBatchStatus(store, u, now).result.value.status) < Rank(store[i].status)
  {
    ProcessingStartedStatus(u.action, Exported);
  }

  /** An update is accepted whatever its time, so a journey can end up with
      a step dated before the one it follows. */
  lemma EarlierTimestampAccepted(store: seq<Batch>, i: nat, u: StatusUpdateData, now: string)
    requires IsFirstMatch(store, u.batchId, i) && |store[i].journey| > 0
    requires !LexLe(store[i].journey[|store[i].journey| - 1].timestamp, now)
    ensures UpdateBatchStatus(store, u, now).result.Success?
    ensures !TimestampsOrdered(UpdateBatchStatus(store, u, now).result.value.journey)
  {
    var j := UpdateBatchStatus(store, u, now).result.value.journey;
    var n := |store[i].journey|;
    assert j[n - 1] == store[i].journey[n - 1] && j[n].timestamp == now;
  }

  /** GUJI001's last step is dated 2024-01-20. An update of GUJI001 dated
      2000-01-01 is accepted all the same, and its journey is then out of
      order. */
  lemma EarlierThanGujiLastStep(u: StatusUpdateData)
    requires u.batchId == Guji.id
    ensures UpdateBatchStatus(Seed, u, "2000-01-01T00:00:00Z").result.Success?
    ensures !TimestampsOrdered(UpdateBatchStatus(Seed, u, "2000-01-01T00:00:00Z").result.value.journey)
  {
    var a := Guji.journey[1].timestamp;
    var b := "2000-01-01T00:00:00Z";
    assert !LexLe(a, b) by {
      assert a != b[..|a|] by { assert a[2] != b[2]; }
      forall k | 0 <= k < |a| && k < |b|
        ensures !(a[..k] == b[..k] && a[k] < b[k])
      {
        if k > 2 {
          assert a[..k][2] != b[..k][2];
        }
      }
    }
    assert IsFirstMatch(Seed, u.batchId, 0);
    EarlierTimestampAccepted(Seed, 0, u, b);
  }

  /** A harvest registration is not validated: a harvest with no weight and
      an empty variety and location is stored as given. */
  lemma HarvestIsNotValidated(store: seq<Batch>, h: HarvestData, suffix: string, now: string)
    requires h.weight <= 0.0 && h.variety == "" && h.location == ""
    ensures var (store', b) := CreateBatch(store, h, suffix, now);
            && store' == store + [b]
            && b.initialWeight <= 0.0 && b.variety == "" && b.location == ""
  {
    var (store', b) := CreateBatch(store, h, suffix, now);
    assert store' == store' [..|store|] + [store'[|store|]];
  }

  /** A new weight is recorded whatever its size: nothing bounds the current
      weight by the initial weight. */
  lemma WeightIsNotBounded(store: seq<Batch>, i: nat, u: StatusUpdateData, now: string)
    requires IsFirstMatch(store, u.batchId, i)
    requires u.newWeight.Some? && u.newWeight.value > store[i].initialWeight > 0.0
    ensures UpdateBatchStatus(store, u, now).result.Success?
    ensures var b := UpdateBatchStatus(store, u, now).result.value;
            b.currentWeight.value > b.initialWeight
  {
  }

  /** Registering a harvest whose id is already in the store adds a second
      batch with that id: nothing checks ids for collisions. */
  lemma IdCanCollide(store: seq<Batch>, i: nat, h: HarvestData, suffix: string, now: string)
    requires i < |store| && store[i].id == BatchId(h.cropType, suffix)
    ensures !DistinctIds(CreateBatch(store, h, suffix, now).0)
  {
    var s := CreateBatch(store, h, suffix, now).0;
    assert s[i] == s[..|store|][i] == store[i];
  }
}
