/** The batch store and its two rules for changing it: registering a
    harvest and appending a status update. The store is the sequence of
    batches in insertion order; each operation returns the new store. The
    random id suffix and the current time are parameters. */
module Ledger {
  import opened Wrappers
  import opened Strings
  import opened SupplyChain

  const HarvestedAction := "HARVESTED"
  const HarvestNotes := "Initial harvest registration"
  const BatchNotFound := "Batch not found"
  const CurrentFarmer := Actor("current_farmer", "Current User")
  const CurrentProcessor := Actor("current_processor", "Processing Station")

  /** The crop name as it appears in an id: `cropType.toUpperCase()`. */
  function CropIdPart(crop: CropType): (p: string)
    ensures |p| == |CropName(crop)|
    ensures forall k :: 0 <= k < |p| ==> p[k] == UpperChar(CropName(crop)[k])
  {
    match crop
    case Coffee => "COFFEE"
    case Tea => "TEA"
    case Flowers => "FLOWERS"
  }

  /** The id a new batch gets: `ETH-`, the upper-cased crop name, `-`, and
      the upper-cased random suffix. */
  function BatchId(crop: CropType, suffix: string): (id: string)
    ensures crop == Coffee ==> id == "ETH-COFFEE-" + ToUpper(suffix)
    ensures crop == Tea ==> id == "ETH-TEA-" + ToUpper(suffix)
    ensures crop == Flowers ==> id == "ETH-FLOWERS-" + ToUpper(suffix)
    ensures |id| == |CropName(crop)| + |suffix| + 5
    ensures forall k :: 0 <= k < |suffix| ==> id[|id| - |suffix| + k] == UpperChar(suffix[k])
  {
    var head := "ETH-" + CropIdPart(crop) + "-";
    var upper := ToUpper(suffix);
    assert |head| == |CropName(crop)| + 5;
    assert forall k :: 0 <= k < |suffix| ==> (head + upper)[|head| + k] == upper[k];
    head + upper
  }

  /** A base-36 digit as `Number.prototype.toString(36)` writes it. */
  predicate Base36Digit(c: char) {
    '0' <= c <= '9' || 'a' <= c <= 'z'
  }

  /** A suffix `Math.random().toString(36).substr(2, 6)` can produce: at
      most six base-36 digits (fewer when the fraction has fewer digits). */
  predicate RandomSuffix(s: string) {
    |s| <= 6 && forall k :: 0 <= k < |s| ==> Base36Digit(s[k])
  }

  /** The id's crop part is `cropType.toUpperCase()`. */
  lemma UpperCropName(c: CropType)
    ensures ToUpper(CropName(c)) == CropIdPart(c)
  {
    ToUpperByChars(CropName(c), CropIdPart(c));
  }

  /** The batch a harvest registration creates. */
  function NewBatch(h: HarvestData, suffix: string, now: string): (b: Batch)
    ensures b.id == BatchId(h.cropType, suffix)
    ensures b.status == Harvested && b.currentWeight.None?
    ensures b.cropType == h.cropType && b.variety == h.variety
    ensures b.location == h.location && b.harvestDate == h.harvestDate
    ensures b.initialWeight == h.weight && b.farmer.region == h.location
    ensures b.farmer == Farmer(CurrentFarmer.id, CurrentFarmer.name, h.location, "2000m",
                               "6.0000° N, 38.0000° E", "addr_test1qcurrentuser...")
    ensures b.policyId.None? && b.assetName.None? && b.metadata.None?
    ensures b.grade.None? && b.cuppingScore.None? && b.moistureContent.None?
    ensures |b.journey| == 1
    ensures b.journey[0].action == HarvestedAction && b.journey[0].timestamp == now
    ensures b.journey[0].actor == CurrentFarmer
    ensures b.journey[0].data == Some(StepData(None, None, None, Some(HarvestNotes)))
  {
    Batch(
      id := BatchId(h.cropType, suffix),
      policyId := None,
      assetName := None,
      farmer := Farmer(
        id := CurrentFarmer.id,
        name := CurrentFarmer.name,
        region := h.location,
        elevation := "2000m",
        gps := "6.0000° N, 38.0000° E",
        walletAddress := "addr_test1qcurrentuser..."),
      cropType := h.cropType,
      variety := h.variety,
      initialWeight := h.weight,
      currentWeight := None,
      location := h.location,
      harvestDate := h.harvestDate,
      status := Harvested,
      grade := None,
      cuppingScore := None,
      moistureContent := None,
      metadata := None,
      journey := [JourneyStep(HarvestedAction, now, CurrentFarmer,
                              Some(StepData(None, None, None, Some(HarvestNotes))))])
  }

  /** `createBatch`: builds the batch and appends it at the end of the store.
      There is no collision check on the id. */
  function CreateBatch(store: seq<Batch>, h: HarvestData, suffix: string, now: string)
    : (r: (seq<Batch>, Batch))
    ensures |r.0| == |store| + 1
    ensures r.0[..|store|] == store
    ensures r.0[|store|] == r.1 == NewBatch(h, suffix, now)
  {
    var b := NewBatch(h, suffix, now);
    (store + [b], b)
  }

  /** `i` is the first position of the store holding a batch with this id. */
  predicate IsFirstMatch(store: seq<Batch>, id: string, i: int) {
    0 <= i < |store| && store[i].id == id
    && forall j :: 0 <= j < i ==> store[j].id != id
  }

  /** No two batches of a store share an id. The store does not enforce this. */
  predicate DistinctIds(store: seq<Batch>) {
    forall i, j :: 0 <= i < j < |store| ==> store[i].id != store[j].id
  }

  /** `store.find(b => b.id === id)`, as a position. */
  function FindIndex(store: seq<Batch>, id: string): (r: Option<nat>)
    ensures r.Some? ==> IsFirstMatch(store, id, r.value)
    ensures r.None? ==> forall i :: 0 <= i < |store| ==> store[i].id != id
  {
    if |store| == 0 then None
    else if store[0].id == id then Some(0)
    else match FindIndex(store[1..], id)
      case None => None
      case Some(k) => Some(k + 1)
  }

  /** `getBatchById`: the first batch with the id, or none; the store is not
      touched. */
  function GetBatchById(store: seq<Batch>, id: string): (r: Option<Batch>)
    ensures r.None? <==> forall i :: 0 <= i < |store| ==> store[i].id != id
    ensures forall i :: IsFirstMatch(store, id, i) ==> r == Some(store[i])
  {
    match FindIndex(store, id)
    case None => None
    case Some(i) => Some(store[i])
  }

  /** Looking a batch up after a successful update gives the updated batch. */
  lemma UpdateThenLookup(store: seq<Batch>, u: StatusUpdateData, now: string)
    requires UpdateBatchStatus(store, u, now).result.Success?
    ensures var o := UpdateBatchStatus(store, u, now);
            GetBatchById(o.store, u.batchId) == Some(o.result.value)
  {
    var o := UpdateBatchStatus(store, u, now);
    var i := FindIndex(store, u.batchId).value;
    assert IsFirstMatch(o.store, u.batchId, i);
  }

  /** `getAllBatches`: the store itself, in insertion order. */
  function GetAllBatches(store: seq<Batch>): seq<Batch> {
    store
  }

  /** The status an update's action leads to. The source applies three
      substring tests in turn, each overwriting the previous one's result,
      so the last test that matches wins. */
  function NextStatus(action: string, prior: Status): (s: Status)
    ensures Contains(action, "RETAIL") ==> s == Retail
    ensures !Contains(action, "RETAIL") && Contains(action, "EXPORT") ==> s == Exported
    ensures (!Contains(action, "RETAIL") && !Contains(action, "EXPORT")
             && Contains(action, "PROCESSING")) ==> s == Processing
    ensures (!Contains(action, "RETAIL") && !Contains(action, "EXPORT")
             && !Contains(action, "PROCESSING")) ==> s == prior
  {
    var afterProcessing := if Contains(action, "PROCESSING") then Processing else prior;
    var afterExport := if Contains(action, "EXPORT") then Exported else afterProcessing;
    if Contains(action, "RETAIL") then Retail else afterExport
  }

  /** The new status depends on the prior one only when no keyword matches. */
  lemma NextStatusIgnoresPrior(action: string, p: Status, q: Status)
    requires Contains(action, "RETAIL") || Contains(action, "EXPORT") || Contains(action, "PROCESSING")
    ensures NextStatus(action, p) == NextStatus(action, q)
  {
  }

  /** The step an update appends. */
  function UpdateStep(u: StatusUpdateData, now: string): (step: JourneyStep)
    ensures step.action == u.action && step.timestamp == now
    ensures step.actor == CurrentProcessor
    ensures step.data == Some(StepData(u.newWeight, u.moistureContent, u.cuppingScore, u.notes))
  {
    JourneyStep(u.action, now, CurrentProcessor,
                Some(StepData(u.newWeight, u.moistureContent, u.cuppingScore, u.notes)))
  }

  /** The value a field takes after an update: the request's when truthy,
      the batch's own otherwise. */
  function KeepUnlessTruthyNumber(current: Option<real>, requested: Option<real>): (r: Option<real>)
    ensures TruthyNumber(requested) ==> r == requested
    ensures !TruthyNumber(requested) ==> r == current
  {
    if TruthyNumber(requested) then requested else current
  }

  function KeepUnlessTruthyString(current: Option<string>, requested: Option<string>): (r: Option<string>)
    ensures TruthyString(requested) ==> r == requested
    ensures !TruthyString(requested) ==> r == current
  {
    if TruthyString(requested) then requested else current
  }

  /** The in-place change `updateBatchStatus` makes to the batch it found. */
  function ApplyUpdate(b: Batch, u: StatusUpdateData, now: string): (r: Batch)
    ensures |r.journey| == |b.journey| + 1
    ensures r.journey[..|b.journey|] == b.journey
    ensures r.journey[|b.journey|] == UpdateStep(u, now)
    ensures r.status == NextStatus(u.action, b.status)
    ensures r.currentWeight == (if TruthyNumber(u.newWeight) then u.newWeight else b.currentWeight)
    ensures r.moistureContent == (if TruthyString(u.moistureContent) then u.moistureContent else b.moistureContent)
    ensures r.cuppingScore == (if TruthyNumber(u.cuppingScore) then u.cuppingScore else b.cuppingScore)
    ensures r.id == b.id && r.policyId == b.policyId && r.assetName == b.assetName
    ensures r.farmer == b.farmer && r.cropType == b.cropType && r.variety == b.variety
    ensures r.initialWeight == b.initialWeight && r.location == b.location
    ensures r.harvestDate == b.harvestDate && r.grade == b.grade && r.metadata == b.metadata
  {
    b.(journey := b.journey + [UpdateStep(u, now)],
       status := NextStatus(u.action, b.status),
       currentWeight := KeepUnlessTruthyNumber(b.currentWeight, u.newWeight),
       moistureContent := KeepUnlessTruthyString(b.moistureContent, u.moistureContent),
       cuppingScore := KeepUnlessTruthyNumber(b.cuppingScore, u.cuppingScore))
  }

  /** The store after an update, and what the call returned or threw. */
  datatype UpdateOutcome = UpdateOutcome(store: seq<Batch>, result: Result<Batch, string>)

  /** `updateBatchStatus`: fails with "Batch not found" and leaves the store
      as it was when no batch has the id; otherwise changes exactly the first
      batch with that id and returns it. */
  function UpdateBatchStatus(store: seq<Batch>, u: StatusUpdateData, now: string): (r: UpdateOutcome)
    ensures (forall i :: 0 <= i < |store| ==> store[i].id != u.batchId)
            ==> r == UpdateOutcome(store, Failure(BatchNotFound))
    ensures forall i :: IsFirstMatch(store, u.batchId, i) ==>
              && r.store == store[i := ApplyUpdate(store[i], u, now)]
              && r.result == Success(r.store[i])
  {
    match FindIndex(store, u.batchId)
    case None => UpdateOutcome(store, Failure(BatchNotFound))
    case Some(i) =>
      var updated := ApplyUpdate(store[i], u, now);
      UpdateOutcome(store[i := updated], Success(updated))
  }

  /** The status obtained by replaying a journey's actions through the status
      rule, starting from `harvested`. */
  function ReplayStatus(journey: seq<JourneyStep>): Status
  {
    if |journey| == 0 then Harvested
    else NextStatus(journey[|journey| - 1].action, ReplayStatus(journey[..|journey| - 1]))
  }

  /** A batch whose history starts with its harvest and whose stored status is
      the one its journey replays to. */
  predicate WellFormedBatch(b: Batch) {
    && |b.journey| > 0
    && b.journey[0].action == HarvestedAction
    && b.status == ReplayStatus(b.journey)
  }

  predicate WellFormedStore(store: seq<Batch>) {
    forall i :: 0 <= i < |store| ==> WellFormedBatch(store[i])
  }

  /** The `HARVESTED` action matches none of the status keywords. */
  lemma HarvestedMatchesNoKeyword(prior: Status)
    ensures NextStatus(HarvestedAction, prior) == prior
  {
    NotContainedWhenCharMissing(HarvestedAction, "RETAIL", 'I');
    NotContainedWhenCharMissing(HarvestedAction, "EXPORT", 'X');
    NotContainedWhenCharMissing(HarvestedAction, "PROCESSING", 'P');
  }

  /** How the status rule treats the four processor actions. */
  lemma ProcessingStartedStatus(a: string, prior: Status)
    requires a == "PROCESSING_STARTED"
    ensures NextStatus(a, prior) == Processing
  {
    NotContainedWhenCharMissing(a, "RETAIL", 'L');
    NotContainedWhenCharMissing(a, "EXPORT", 'X');
    assert MatchesAt(a, "PROCESSING", 0);
  }

  lemma ProcessingCompleteStatus(a: string, prior: Status)
    requires a == "PROCESSING_COMPLETE"
    ensures NextStatus(a, prior) == Processing
  {
    NotContainedWhenCharMissing(a, "RETAIL", 'A');
    NotContainedWhenCharMissing(a, "EXPORT", 'X');
    assert MatchesAt(a, "PROCESSING", 0);
  }

  lemma QualityCheckStatus(a: string, prior: Status)
    requires a == "QUALITY_CHECK"
    ensures NextStatus(a, prior) == prior
  {
    NotContainedWhenCharMissing(a, "RETAIL", 'R');
    NotContainedWhenCharMissing(a, "EXPORT", 'X');
    NotContainedWhenCharMissing(a, "PROCESSING", 'P');
  }

  lemma ReadyForExportStatus(a: string, prior: Status)
    requires a == "READY_FOR_EXPORT"
    ensures NextStatus(a, prior) == Exported
  {
    NotContainedWhenCharMissing(a, "RETAIL", 'I');
    assert MatchesAt(a, "EXPORT", 10);
  }

  /** A newly registered batch is well formed. */
  lemma NewBatchWellFormed(h: HarvestData, suffix: string, now: string)
    ensures WellFormedBatch(NewBatch(h, suffix, now))
  {
    var b := NewBatch(h, suffix, now);
    HarvestedMatchesNoKeyword(Harvested);
    assert b.journey[..0] == [];
  }

  /** An update keeps a batch well formed: the stored status never drifts
      from the status its journey replays to. */
  lemma ApplyUpdateWellFormed(b: Batch, u: StatusUpdateData, now: string)
    requires WellFormedBatch(b)
    ensures WellFormedBatch(ApplyUpdate(b, u, now))
  {
    var r := ApplyUpdate(b, u, now);
    assert r.journey[..|r.journey| - 1] == b.journey;
  }

  /** `createBatch` keeps the store well formed. */
  lemma CreateBatchKeepsStoreWellFormed(store: seq<Batch>, h: HarvestData, suffix: string, now: string)
    requires WellFormedStore(store)
    ensures WellFormedStore(CreateBatch(store, h, suffix, now).0)
  {
    NewBatchWellFormed(h, suffix, now);
    var s' := CreateBatch(store, h, suffix, now).0;
    forall i | 0 <= i < |s'|
      ensures WellFormedBatch(s'[i])
    {
      if i < |store| {
        assert s'[i] == s'[..|store|][i];
      }
    }
  }

  /** `updateBatchStatus` keeps the store well formed, whether it succeeds
      or fails. */
  lemma UpdateKeepsStoreWellFormed(store: seq<Batch>, u: StatusUpdateData, now: string)
    requires WellFormedStore(store)
    ensures WellFormedStore(UpdateBatchStatus(store, u, now).store)
  {
    match FindIndex(store, u.batchId)
    case None =>
    case Some(i) =>
      ApplyUpdateWellFormed(store[i], u, now);
  }

  /** Registering a 100 kg coffee harvest and then starting its processing
      with 85 kg at 11.5% moisture: the batch is processing, weighs 85 kg,
      records the moisture and has a two-step journey. */
  lemma HarvestThenProcessScenario(store: seq<Batch>, suffix: string, t0: string, t1: string)
    requires forall i :: 0 <= i < |store| ==> store[i].id != BatchId(Coffee, suffix)
    ensures var h := HarvestData(Coffee, 100.0, "Guji Zone", "Heirloom", "2024-01-15", None);
            var (s1, b) := CreateBatch(store, h, suffix, t0);
            var u := StatusUpdateData(b.id, "PROCESSING_STARTED", Some(85.0), Some("11.5%"), None, None);
            var o := UpdateBatchStatus(s1, u, t1);
            && b.status == Harvested && b.initialWeight == 100.0 && |b.journey| == 1
            && o.result.Success?
            && o.result.value.status == Processing
            && o.result.value.currentWeight == Some(85.0)
            && o.result.value.moistureContent == Some("11.5%")
            && |o.result.value.journey| == 2
  {
    var h := HarvestData(Coffee, 100.0, "Guji Zone", "Heirloom", "2024-01-15", None);
    var (s1, b) := CreateBatch(store, h, suffix, t0);
    assert IsFirstMatch(s1, b.id, |store|);
    ProcessingStartedStatus("PROCESSING_STARTED", Harvested);
  }
}
