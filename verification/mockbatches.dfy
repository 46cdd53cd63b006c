/** The seed store the ledger starts from: two coffee batches, one already
    in processing and one just harvested. */
module MockBatches {
  import opened Wrappers
  import opened Strings
  import opened SupplyChain
  import opened Ledger

  const Guji := Batch(
    id := "ETH-COFFEE-GUJI001",
    policyId := None,
    assetName := None,
    farmer := Farmer("farmer_001", "Kebede Alazar", "Guji Zone, Oromia", "2100m",
                     "5.8500° N, 39.0500° E", "addr_test1qp8...alazar"),
    cropType := Coffee,
    variety := "Heirloom",
    initialWeight := 100.0,
    currentWeight := Some(85.0),
    location := "Guji Highlands",
    harvestDate := "2024-01-15",
    status := Processing,
    grade := Some("Grade 1"),
    cuppingScore := Some(88.5),
    moistureContent := Some("11.5%"),
    metadata := None,
    journey := [
      JourneyStep("HARVESTED", "2024-01-15T08:00:00Z", Actor("farmer_001", "Kebede Alazar"),
                  Some(StepData(None, None, None, Some("Premium Arabica cherries harvested")))),
      JourneyStep("PROCESSING_STARTED", "2024-01-20T10:00:00Z",
                  Actor("processor_001", "Dimitu Tero Mill"),
                  Some(StepData(Some(85.0), Some("11.5%"), Some(88.5),
                                Some("Natural sun-dried process initiated"))))])

  const Sidama := Batch(
    id := "ETH-COFFEE-SIDAMA002",
    policyId := None,
    assetName := None,
    farmer := Farmer("farmer_002", "Alemitu Bekele", "Sidama Zone", "1900m",
                     "6.5000° N, 38.5000° E", "addr_test1qr9...bekele"),
    cropType := Coffee,
    variety := "Yirgacheffe",
    initialWeight := 150.0,
    currentWeight := None,
    location := "Sidama Highlands",
    harvestDate := "2024-01-18",
    status := Harvested,
    grade := None,
    cuppingScore := None,
    moistureContent := None,
    metadata := None,
    journey := [
      JourneyStep("HARVESTED", "2024-01-18T07:30:00Z", Actor("farmer_002", "Alemitu Bekele"),
                  Some(StepData(None, None, None, Some("Washed process Yirgacheffe"))))])

  /** `mockBatches`, the initial store. */
  const Seed: seq<Batch> := [Guji, Sidama]

  /** The timestamps of a journey never go backwards (ISO-8601 strings
      compare lexicographically). */
  predicate TimestampsOrdered(journey: seq<JourneyStep>) {
    forall i :: 0 <= i < |journey| - 1 ==> LexLe(journey[i].timestamp, journey[i + 1].timestamp)
  }

  /** The seed ids are distinct. */
  lemma SeedIdsDistinct()
    ensures DistinctIds(Seed)
  {
    assert Guji.id[11] != Sidama.id[11];
  }

  /** No harvest registration can reproduce a seed id: a random suffix has at
      most six characters, so a coffee or tea id is shorter than either seed
      id, and a flowers id of GUJI001's length differs from it at `F`. */
  lemma SeedIdsNotGenerated(c: CropType, suffix: string)
    requires RandomSuffix(suffix)
    ensures BatchId(c, suffix) != Guji.id && BatchId(c, suffix) != Sidama.id
  {
    if c == Flowers {
      assert BatchId(c, suffix)[4] == 'F' != Guji.id[4];
    }
  }

  /** GUJI001 starts with its harvest, and its stored status, processing,
      is the one its journey replays to. */
  lemma GujiWellFormed()
    ensures ReplayStatus(Guji.journey) == Processing == Guji.status
    ensures WellFormedBatch(Guji)
  {
    var j := Guji.journey;
    HarvestedMatchesNoKeyword(Harvested);
    ProcessingStartedStatus(j[1].action, Harvested);
    assert j[..1] == [j[0]] && j[..1][..0] == [];
    assert ReplayStatus(j[..1]) == Harvested;
  }

  /** SIDAMA002 starts with its harvest, and its stored status, harvested,
      is the one its journey replays to. */
  lemma SidamaWellFormed()
    ensures ReplayStatus(Sidama.journey) == Harvested == Sidama.status
    ensures WellFormedBatch(Sidama)
  {
    HarvestedMatchesNoKeyword(Harvested);
    assert Sidama.journey[..0] == [];
  }

  /** The seed store satisfies the ledger's store invariant. */
  lemma SeedWellFormed()
    ensures WellFormedStore(Seed)
  {
    GujiWellFormed();
    SidamaWellFormed();
  }

  /** GUJI001's current weight is its last step's recorded new weight and
      does not exceed its initial weight; SIDAMA002 has no current weight. */
  lemma SeedWeights()
    ensures Guji.currentWeight == Guji.journey[|Guji.journey| - 1].data.value.newWeight
    ensures Guji.currentWeight.value <= Guji.initialWeight
    ensures Sidama.currentWeight.None?
  {
  }

  /** The seed journeys' timestamps are in order. */
  lemma SeedTimestampsOrdered()
    ensures TimestampsOrdered(Guji.journey)
    ensures TimestampsOrdered(Sidama.journey)
  {
    var a := Guji.journey[0].timestamp;
    var b := Guji.journey[1].timestamp;
    assert a[..8] == b[..8] && a[8] < b[8];
  }
}
