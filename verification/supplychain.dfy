/** The entity model of the provenance ledger: farmers, batches, journey
    steps and the two request shapes (harvest registration and status
    update). Optional fields are `Option`s; a JavaScript `number` is a
    `real`, and a JavaScript truthiness test on an optional field is one of
    the `Truthy` predicates below. */
module SupplyChain {
  import opened Wrappers

  /** The crop types a batch or a harvest request may carry. */
  datatype CropType = Coffee | Tea | Flowers

  /** The four batch statuses, in their declared order. */
  datatype Status = Harvested | Processing | Exported | Retail

  const AllCropTypes: seq<CropType> := [Coffee, Tea, Flowers]
  const AllStatuses: seq<Status> := [Harvested, Processing, Exported, Retail]

  /** The string a crop type is stored and compared as. */
  function CropName(c: CropType): string {
    match c
    case Coffee => "coffee"
    case Tea => "tea"
    case Flowers => "flowers"
  }

  /** Reads a crop type back from its string; any other string is none. */
  function ParseCropType(s: string): (r: Option<CropType>)
    ensures r.Some? ==> CropName(r.value) == s
    ensures r.None? ==> forall c: CropType :: CropName(c) != s
  {
    if s == "coffee" then Some(Coffee)
    else if s == "tea" then Some(Tea)
    else if s == "flowers" then Some(Flowers)
    else None
  }

  /** The string a status is stored and compared as. */
  function StatusName(s: Status): string {
    match s
    case Harvested => "harvested"
    case Processing => "processing"
    case Exported => "exported"
    case Retail => "retail"
  }

  /** Reads a status back from its string; any other string is none. */
  function ParseStatus(s: string): (r: Option<Status>)
    ensures r.Some? ==> StatusName(r.value) == s
    ensures r.None? ==> forall st: Status :: StatusName(st) != s
  {
    if s == "harvested" then Some(Harvested)
    else if s == "processing" then Some(Processing)
    else if s == "exported" then Some(Exported)
    else if s == "retail" then Some(Retail)
    else None
  }

  /** A crop type's name is one of exactly three strings, and reading it back
      recovers the crop type. */
  lemma CropNameRoundTrip(c: CropType)
    ensures CropName(c) in {"coffee", "tea", "flowers"}
    ensures ParseCropType(CropName(c)) == Some(c)
    ensures c in AllCropTypes
  {
  }

  /** A status's name is one of exactly four strings, and reading it back
      recovers the status. */
  lemma StatusNameRoundTrip(s: Status)
    ensures StatusName(s) in {"harvested", "processing", "exported", "retail"}
    ensures ParseStatus(StatusName(s)) == Some(s)
    ensures s in AllStatuses
  {
  }

  /** The position of a status in the declared order; used only to show
      that the ledger does NOT keep status monotonic. */
  function Rank(s: Status): nat {
    match s
    case Harvested => 0
    case Processing => 1
    case Exported => 2
    case Retail => 3
  }

  /** JavaScript truthiness of an optional number: present and non-zero. */
  predicate TruthyNumber(x: Option<real>) {
    x.Some? && x.value != 0.0
  }

  /** JavaScript truthiness of an optional string: present and non-empty. */
  predicate TruthyString(x: Option<string>) {
    x.Some? && |x.value| > 0
  }

  datatype Farmer = Farmer(
    id: string,
    name: string,
    region: string,
    elevation: string,
    gps: string,
    walletAddress: string)

  datatype Origin = Origin(
    farmer: string, region: string, elevation: string, gps: string, harvestDate: string)

  datatype Specifications = Specifications(
    variety: string, process: string, initialWeight: string)

  /** Descriptive metadata attached to a minted batch; never read by the ledger. */
  datatype BatchMetadata = BatchMetadata(
    name: string,
    image: string,
    description: string,
    origin: Origin,
    specifications: Specifications)

  /** Who performed a journey step. */
  datatype Actor = Actor(id: string, name: string)

  /** The optional measurements a journey step may carry; each field is
      independently optional. */
  datatype StepData = StepData(
    newWeight: Option<real>,
    moistureContent: Option<string>,
    cuppingScore: Option<real>,
    notes: Option<string>)

  /** One recorded event of a batch's journey. */
  datatype JourneyStep = JourneyStep(
    action: string,
    timestamp: string,
    actor: Actor,
    data: Option<StepData>)

  /** A traceable batch: `initialWeight` is mandatory, the measurements are
      optional, and `journey` is the ordered history of steps. */
  datatype Batch = Batch(
    id: string,
    policyId: Option<string>,
    assetName: Option<string>,
    farmer: Farmer,
    cropType: CropType,
    variety: string,
    initialWeight: real,
    currentWeight: Option<real>,
    location: string,
    harvestDate: string,
    status: Status,
    grade: Option<string>,
    cuppingScore: Option<real>,
    moistureContent: Option<string>,
    metadata: Option<BatchMetadata>,
    journey: seq<JourneyStep>)

  /** A harvest registration request. */
  datatype HarvestData = HarvestData(
    cropType: CropType,
    weight: real,
    location: string,
    variety: string,
    harvestDate: string,
    process: Option<string>)

  /** A status update request: `batchId` and `action` are required, the
      measurements and notes are optional. */
  datatype StatusUpdateData = StatusUpdateData(
    batchId: string,
    action: string,
    newWeight: Option<real>,
    moistureContent: Option<string>,
    cuppingScore: Option<real>,
    notes: Option<string>)
}
