/** The farmer-side batches hook: a client-side list of batches with a
    loading flag and an error message, refreshed from the store and kept up
    to date after creations and updates. A store call's outcome is a
    `Result` parameter; a failed call leaves the list as it was, records a
    message and re-throws the store's error. */
module BatchesHook {
  import opened Wrappers
  import opened SupplyChain
  import opened Ledger

  const LoadFailed := "Failed to load batches"
  const CreateFailed := "Failed to create batch"
  const UpdateFailed := "Failed to update batch"

  datatype HookState = HookState(batches: seq<Batch>, isLoading: bool, error: Option<string>)

  /** The hook's state before its first load. */
  const InitialHookState := HookState([], true, None)

  /** The hook's state after a call, and what the call returned or threw. */
  datatype HookCall = HookCall(state: HookState, result: Result<Batch, string>)

  /** `loadBatches`: replaces the list with the store's contents, or records
      the load failure; loading is over either way. A success does not clear
      an earlier error. */
  function LoadBatches(st: HookState, fetched: Result<seq<Batch>, string>): (r: HookState)
    ensures !r.isLoading
    ensures fetched.Success? ==> r.batches == fetched.value && r.error == st.error
    ensures fetched.Failure? ==> r.batches == st.batches && r.error == Some(LoadFailed)
  {
    match fetched
    case Success(data) => st.(batches := data, isLoading := false)
    case Failure(_) => st.(error := Some(LoadFailed), isLoading := false)
  }

  /** `addBatch`: the created batch goes to the front of the list. */
  function AddBatch(st: HookState, created: Result<Batch, string>): (r: HookCall)
    ensures r.result == created
    ensures created.Success? ==> |r.state.batches| == |st.batches| + 1
    ensures created.Success? ==> r.state.batches[0] == created.value && r.state.batches[1..] == st.batches
    ensures created.Success? ==> r.state.error == st.error && r.state.isLoading == st.isLoading
    ensures created.Failure? ==> r.state == st.(error := Some(CreateFailed))
  {
    match created
    case Success(b) => HookCall(st.(batches := [b] + st.batches), created)
    case Failure(_) => HookCall(st.(error := Some(CreateFailed)), created)
  }

  /** `list.map(b => b.id === updated.id ? updated : b)`. */
  function ReplaceById(list: seq<Batch>, updated: Batch): (r: seq<Batch>)
    ensures |r| == |list|
    ensures forall i :: 0 <= i < |list| && list[i].id == updated.id ==> r[i] == updated
    ensures forall i :: 0 <= i < |list| && list[i].id != updated.id ==> r[i] == list[i]
  {
    if |list| == 0 then []
    else [if list[0].id == updated.id then updated else list[0]] + ReplaceById(list[1..], updated)
  }

  /** `updateBatch`: every entry with the updated batch's id is replaced by it. */
  function UpdateBatch(st: HookState, updated: Result<Batch, string>): (r: HookCall)
    ensures r.result == updated
    ensures updated.Success? ==> r.state.batches == ReplaceById(st.batches, updated.value)
    ensures updated.Success? ==> r.state.error == st.error && r.state.isLoading == st.isLoading
    ensures updated.Failure? ==> r.state == st.(error := Some(UpdateFailed))
  {
    match updated
    case Success(b) => HookCall(st.(batches := ReplaceById(st.batches, b)), updated)
    case Failure(_) => HookCall(st.(error := Some(UpdateFailed)), updated)
  }

  /** `updateBatch` through the store: an unknown id leaves both the store
      and the list unchanged, records "Failed to update batch" and re-throws
      "Batch not found". */
  lemma UpdateUnknownIdChangesNothing(st: HookState, store: seq<Batch>, u: StatusUpdateData, now: string)
    requires forall i :: 0 <= i < |store| ==> store[i].id != u.batchId
    ensures var o := UpdateBatchStatus(store, u, now);
            var c := UpdateBatch(st, o.result);
            && o.store == store
            && c.state.batches == st.batches
            && c.state.error == Some(UpdateFailed)
            && c.result == Failure(BatchNotFound)
  {
  }

  /** When the list holds the store's batches and the ids are distinct, an
      update through the hook leaves the list equal to the new store. */
  lemma {:induction false} UpdateKeepsListInStep(st: HookState, store: seq<Batch>, u: StatusUpdateData, now: string)
    requires st.batches == store && DistinctIds(store)
    ensures var o := UpdateBatchStatus(store, u, now);
            UpdateBatch(st, o.result).state.batches == o.store
  {
    var o := UpdateBatchStatus(store, u, now);
    match FindIndex(store, u.batchId)
    case None =>
    case Some(i) =>
      var r := ReplaceById(store, o.result.value);
      assert o.result.value.id == u.batchId;
      forall k | 0 <= k < |store|
        ensures r[k] == o.store[k]
      {
        if k != i {
          assert store[k].id != u.batchId;
        }
      }
  }

  /** Loading the store and then adding a newly created batch lists each
      batch of the new store exactly once, newest first. */
  lemma LoadThenAddListsEachBatchOnce(st: HookState, store: seq<Batch>, h: HarvestData, suffix: string, now: string)
    ensures var (store', b) := CreateBatch(store, h, suffix, now);
            var list := AddBatch(LoadBatches(st, Success(store)), Success(b)).state.batches;
            && list == [b] + store
            && |list| == |store'|
            && multiset(list) == multiset(store')
            && (DistinctIds(store') ==> DistinctIds(list))
            && AddBatch(LoadBatches(InitialHookState, Success(store)), Success(b)).state
               == HookState([b] + store, false, None)
  {
    var (store', b) := CreateBatch(store, h, suffix, now);
    var list := AddBatch(LoadBatches(st, Success(store)), Success(b)).state.batches;
    assert list == [b] + store;
    assert store' == store + [b];
    if DistinctIds(store') {
      forall i, j | 0 <= i < j < |list|
        ensures list[i].id != list[j].id
      {
        if i == 0 {
          assert list[j] == store'[j - 1];
          assert b == store'[|store|];
        } else {
          assert list[i] == store'[i - 1] && list[j] == store'[j - 1];
        }
      }
    }
  }

  /** The hook as written keeps the very array the store returned and the
      store appends to that array, so when the created batch is prepended the
      list already ends with it. Returns the hook's list and the store. */
  function AddBatchSharedList(shared: seq<Batch>, h: HarvestData, suffix: string, now: string)
    : (r: (seq<Batch>, seq<Batch>))
    ensures var (store', b) := CreateBatch(shared, h, suffix, now);
            r.1 == store' && r.0 == [b] + store'
  {
    var (store', b) := CreateBatch(shared, h, suffix, now);
    ([b] + store', store')
  }

  /** With the shared array, the new batch is listed twice: at the front and
      at the end, one entry more than the store holds. */
  lemma SharedListDuplicatesNewBatch(shared: seq<Batch>, h: HarvestData, suffix: string, now: string)
    ensures var (list, store') := AddBatchSharedList(shared, h, suffix, now);
            && |list| == |store'| + 1
            && list[0] == list[|list| - 1] == NewBatch(h, suffix, now)
            && !DistinctIds(list)
  {
    var (list, store') := AddBatchSharedList(shared, h, suffix, now);
    assert list[0].id == list[|list| - 1].id;
  }
}
