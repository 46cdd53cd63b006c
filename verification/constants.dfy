/** The lookup tables the views use: the label and colour of each batch
    status, and the selectable crop types. */
module Constants {
  import opened Wrappers
  import opened SupplyChain

  /** A status's display label (`caption`) and badge colour. */
  datatype StatusConfig = StatusConfig(caption: string, color: string)

  /** `BATCH_STATUS`, as its keys in declaration order with their entries. */
  const BatchStatusTable: seq<(string, StatusConfig)> := [
    ("harvested", StatusConfig("Harvested", "green")),
    ("processing", StatusConfig("Processing", "blue")),
    ("exported", StatusConfig("Exported", "yellow")),
    ("retail", StatusConfig("In Retail", "purple"))
  ]

  /** One entry of `CROP_TYPES`; the icon is not modelled. */
  datatype CropOption = CropOption(value: string, caption: string)

  const CropTypeOptions: seq<CropOption> := [
    CropOption("coffee", "Coffee"),
    CropOption("tea", "Tea"),
    CropOption("flowers", "Flowers")
  ]

  /** `BATCH_STATUS[key]`: the entry for a key, if the table has one. */
  function LookupStatus(key: string): (r: Option<StatusConfig>)
    ensures r.Some? <==> exists i :: 0 <= i < |BatchStatusTable| && BatchStatusTable[i].0 == key
    ensures r.Some? ==> exists i :: 0 <= i < |BatchStatusTable| && BatchStatusTable[i] == (key, r.value)
  {
    if key == "harvested" then Some(BatchStatusTable[0].1)
    else if key == "processing" then Some(BatchStatusTable[1].1)
    else if key == "exported" then Some(BatchStatusTable[2].1)
    else if key == "retail" then Some(BatchStatusTable[3].1)
    else None
  }

  /** The table's keys are exactly the four status names, in status order,
      and every status has an entry. */
  lemma StatusTableCoversStatuses()
    ensures |BatchStatusTable| == |AllStatuses|
    ensures forall i :: 0 <= i < |AllStatuses| ==> BatchStatusTable[i].0 == StatusName(AllStatuses[i])
    ensures forall s: Status :: LookupStatus(StatusName(s)).Some?
  {
  }

  /** The configured label of each status. */
  lemma StatusLabels()
    ensures LookupStatus(StatusName(Harvested)) == Some(StatusConfig("Harvested", "green"))
    ensures LookupStatus(StatusName(Processing)) == Some(StatusConfig("Processing", "blue"))
    ensures LookupStatus(StatusName(Exported)) == Some(StatusConfig("Exported", "yellow"))
    ensures LookupStatus(StatusName(Retail)) == Some(StatusConfig("In Retail", "purple"))
  {
  }

  /** The selectable crop values are exactly the crop type names, in order. */
  lemma CropOptionsAreCropTypes()
    ensures |CropTypeOptions| == |AllCropTypes|
    ensures forall i :: 0 <= i < |AllCropTypes| ==> CropTypeOptions[i].value == CropName(AllCropTypes[i])
  {
  }
}
