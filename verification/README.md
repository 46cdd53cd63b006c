# Batch provenance ledger — a verified Dafny model

This project models the core of a farm-to-market traceability front end: the
**batch provenance ledger**. A batch of coffee, tea or flowers is registered
at harvest. Processors then append journey steps to it, and consumers read
the journey back as a timeline.

The store is a sequence of `Batch` values in insertion order. It has two rules
for changing it:

- `createBatch` registers a harvest. The new batch has status `harvested` and
  one `HARVESTED` step, and it is appended at the end of the store.
- `updateBatchStatus` appends one step to the first batch with the requested
  id. The new status comes from keywords in the action string. A measurement
  is overwritten only when the request's value is truthy.

Around the store sit pure derivations, each modelled as a function from values
to values:

- the client-side batch list kept by the batches hook;
- the farmer's batch-list cards;
- the consumer's journey timeline;
- the processor's update form and its transaction preview;
- the batch-id and GPS formatters.

Files and modules:

| file | module | models |
|---|---|---|
| wrappers.dfy | `Wrappers` | `Option` for optional fields, `Result` for thrown errors |
| strings.dfy | `Strings` | `includes`, `toUpperCase`/`toLowerCase`, `replace`, `split`, and a string `<=` used only to state timestamp order |
| supplychain.dfy | `SupplyChain` | the entities: `Farmer`, `Batch`, `JourneyStep`, `HarvestData`, `StatusUpdateData`; JavaScript truthiness |
| ledger.dfy | `Ledger` | `createBatch`, `updateBatchStatus`, `getBatchById`, `getAllBatches`, and the store invariant they keep |
| mockbatches.dfy | `MockBatches` | the seed store and its properties |
| ledger_gaps.dfy | `LedgerGaps` | guarantees the store does not give, each shown failing |
| usebatches.dfy | `BatchesHook` | `loadBatches`, `addBatch`, `updateBatch` of the batches hook |
| constants.dfy | `Constants` | `BATCH_STATUS` and `CROP_TYPES` |
| batchlist.dfy | `BatchList` | the farmer's batch list |
| journey.dfy | `JourneyTimeline` | the consumer journey timeline |
| statusupdate.dfy | `StatusUpdateForm` | the processor's update form, its submit step and its preview |
| formatters.dfy | `Formatters` | `generateBatchId` and `formatGPS` |

Conventions:

- A JavaScript `number` is a Dafny `real`. Numbers are only copied, compared
  and tested for truthiness, so no floating-point arithmetic is involved.
- An optional field `x?: T` is an `Option<T>`. A `number` is truthy when it is
  present and non-zero. A `string` is truthy when it is present and non-empty.
- The random id suffix and the current time are parameters (`suffix` or
  `randomPart`, and `now`). Every asynchronous call is modelled as a
  synchronous function.
- An error thrown by the store or re-thrown by the hook is a `Failure`. Each
  store operation returns the new store. A failed update therefore visibly
  returns the old store unchanged.

The code keeps no invariant beyond what its two rules imply. It does not keep
the status monotonic. It does not check that timestamps are in order. It does
not bound the weight, check ids for collisions or validate requests. A
provenance ledger is commonly expected to give these guarantees; this code
gives none of them, so the model follows the code. `LedgerGaps` proves that
each of them fails. What the code does keep is proved in `Ledger`: every batch starts with
its `HARVESTED` step, and its stored status equals the status its journey
replays to.

## Model

| member | source | states |
|---|---|---|
| SupplyChain.ParseCropType | src/types/supplychain.ts:15 | a crop type string is read back only when it is exactly coffee, tea or flowers; every other string names no crop type |
| SupplyChain.CropNameRoundTrip | src/types/supplychain.ts:63 | every crop type, of a batch or of a harvest request, is one of the three names, and reading its name back recovers it |
| SupplyChain.ParseStatus | src/types/supplychain.ts:21 | a status string is read back only when it is exactly harvested, processing, exported or retail |
| SupplyChain.StatusNameRoundTrip | src/types/supplychain.ts:21 | every status is one of the four names, and reading its name back recovers it |
| Ledger.CropIdPart | src/utils/mockData.ts:9 | the crop part of an id has one character per character of the crop name, each upper-cased |
| Ledger.UpperCropName | src/utils/mockData.ts:9 | the crop part of an id is exactly `cropType.toUpperCase()` |
| Ledger.BatchId | src/utils/mockData.ts:9 | a coffee batch's id is "ETH-COFFEE-" followed by the upper-cased suffix, a tea batch's "ETH-TEA-…" and a flowers batch's "ETH-FLOWERS-…". The id is five characters longer than crop name and suffix together, and it ends with the suffix upper-cased character by character |
| Ledger.NewBatch | src/utils/mockData.ts:8-32 | a registered batch has status harvested and no current weight, grade, cupping score, moisture, policy id, asset name or metadata. It copies crop type, variety, location and harvest date from the request and takes the request weight as initial weight. Its farmer is current_farmer / Current User from the request location, at 2000m, with the fixed GPS and wallet address. Its only step is HARVESTED by current_farmer, at the given time, noting "Initial harvest registration" |
| Ledger.CreateBatch | src/utils/mockData.ts:5-35 | the store grows by exactly one batch, at the end, and the existing batches are untouched |
| Ledger.FindIndex | src/utils/mockData.ts:41 | the lookup finds the first position holding the id, or reports that no batch has it |
| Ledger.GetBatchById | src/utils/mockData.ts:70-73 | the lookup returns the first batch with the id, and none exactly when no batch has it |
| Ledger.UpdateThenLookup | src/utils/mockData.ts:38-73 | after a successful update, looking the id up returns the batch the update returned |
| Ledger.NextStatus | src/utils/mockData.ts:58-61 | the three tests run in order and the last match wins, so RETAIL gives retail, else EXPORT gives exported, else PROCESSING gives processing, else the status is unchanged |
| Ledger.NextStatusIgnoresPrior | src/utils/mockData.ts:59-61 | once any keyword matches, the new status does not depend on the prior status |
| Ledger.UpdateStep | src/utils/mockData.ts:44-54 | the appended step carries the request's action and its four data fields, at the given time, by current_processor |
| Ledger.KeepUnlessTruthyNumber | src/utils/mockData.ts:63 | a numeric field takes the request's value only when it is present and non-zero, and keeps its own value otherwise |
| Ledger.KeepUnlessTruthyString | src/utils/mockData.ts:64 | the moisture field takes the request's value only when it is a non-empty string, and keeps its own value otherwise |
| Ledger.ApplyUpdate | src/utils/mockData.ts:44-65 | the journey grows by exactly the update step, and earlier steps are unchanged. Status follows the keyword rule, the three measurements follow the truthiness rule, and every other field is unchanged |
| Ledger.UpdateBatchStatus | src/utils/mockData.ts:38-68 | an unknown id fails with "Batch not found" and the store is unchanged. Otherwise exactly the first batch with the id is updated, every other position is unchanged, and the updated batch is returned |
| Ledger.ProcessingStartedStatus | src/utils/mockData.ts:59 | the PROCESSING_STARTED action gives processing from any prior status |
| Ledger.ProcessingCompleteStatus | src/utils/mockData.ts:59 | the PROCESSING_COMPLETE action gives processing from any prior status |
| Ledger.QualityCheckStatus | src/utils/mockData.ts:59-61 | the QUALITY_CHECK action matches no keyword and leaves the status as it was |
| Ledger.ReadyForExportStatus | src/utils/mockData.ts:60 | the READY_FOR_EXPORT action gives exported from any prior status |
| Ledger.HarvestedMatchesNoKeyword | src/utils/mockData.ts:26 | the HARVESTED action matches no keyword, so it never changes a status |
| Ledger.NewBatchWellFormed | src/utils/mockData.ts:23-31 | a registered batch starts with its harvest step, and its status equals the status its journey replays to |
| Ledger.ApplyUpdateWellFormed | src/utils/mockData.ts:56-61 | an update keeps the stored status equal to the status replayed from the journey, so status never drifts from history |
| Ledger.CreateBatchKeepsStoreWellFormed | src/utils/mockData.ts:34 | registering a harvest keeps every batch of the store well formed |
| Ledger.UpdateKeepsStoreWellFormed | src/utils/mockData.ts:41-61 | an update keeps every batch of the store well formed, whether it succeeds or fails |
| Ledger.HarvestThenProcessScenario | src/utils/mockData.ts:5-68 | a 100 kg coffee harvest followed by PROCESSING_STARTED with 85 kg and "11.5%" ends with a processing batch weighing 85 kg, with that moisture and a two-step journey |
| MockBatches.SeedIdsDistinct | src/data/mockBatches.ts:5-45 | the two seed batch ids are distinct |
| MockBatches.SeedIdsNotGenerated | src/utils/mockData.ts:9 | no harvest registration, whatever its crop type and whatever suffix of at most six base-36 digits it draws, gets the id of either seed batch |
| MockBatches.GujiWellFormed | src/data/mockBatches.ts:20-36 | GUJI001 begins with HARVESTED, and replaying its actions gives processing, which is its stored status |
| MockBatches.SidamaWellFormed | src/data/mockBatches.ts:56-66 | SIDAMA002 begins with HARVESTED, and replaying its actions gives harvested, which is its stored status |
| MockBatches.SeedWellFormed | src/data/mockBatches.ts:3-69 | the seed store satisfies the invariant the two store rules keep |
| MockBatches.SeedWeights | src/data/mockBatches.ts:16-36 | GUJI001's current weight of 85 is its last step's new weight and does not exceed its initial 100. SIDAMA002 has no current weight |
| MockBatches.SeedTimestampsOrdered | src/data/mockBatches.ts:27-33 | the timestamps of each seed journey never go backwards |
| LedgerGaps.StatusCanMoveBackward | src/utils/mockData.ts:59-61 | a PROCESSING_STARTED update of an exported batch succeeds and moves its status back to processing |
| LedgerGaps.EarlierTimestampAccepted | src/utils/mockData.ts:46-56 | an update dated before the batch's last step is accepted, and the journey's timestamps are then out of order |
| LedgerGaps.EarlierThanGujiLastStep | src/utils/mockData.ts:38-68 | on the seed store, any update of GUJI001 dated 2000-01-01 is accepted, and GUJI001's journey is then out of time order |
| LedgerGaps.WeightIsNotBounded | src/utils/mockData.ts:63 | a new weight above the initial weight is recorded as it is |
| LedgerGaps.IdCanCollide | src/utils/mockData.ts:9-34 | registering a harvest whose id is already in the store adds a second batch with that id |
| LedgerGaps.HarvestIsNotValidated | src/utils/mockData.ts:5-35 | a harvest with a zero or negative weight and an empty variety and location is registered as given |
| BatchesHook.LoadBatches | src/hooks/useBatches.ts:10-20 | a successful load replaces the list with the store contents. A failed load keeps the list and records "Failed to load batches". Loading is over either way |
| BatchesHook.AddBatch | src/hooks/useBatches.ts:22-31 | a created batch is put first, ahead of the old list. A failure keeps the list, records "Failed to create batch" and re-throws the same error |
| BatchesHook.ReplaceById | src/hooks/useBatches.ts:36-38 | every entry with the updated batch's id is replaced by it, and length, order and all other entries are kept |
| BatchesHook.UpdateBatch | src/hooks/useBatches.ts:33-44 | a successful update replaces entries by id. A failure keeps the list, records "Failed to update batch" and re-throws the same error |
| BatchesHook.UpdateUnknownIdChangesNothing | src/hooks/useBatches.ts:40-43 | an update of an unknown id changes neither the store nor the list, records "Failed to update batch" and re-throws "Batch not found" |
| BatchesHook.UpdateKeepsListInStep | src/hooks/useBatches.ts:35-38 | when the list holds the store's batches and ids are distinct, the list after an update equals the new store |
| BatchesHook.LoadThenAddListsEachBatchOnce | src/hooks/useBatches.ts:7-25 | with a list copied from the store, adding a created batch lists each batch of the new store once, newest first. From the hook's initial state, the list is then the new batch followed by the store, loading is over and there is no error |
| BatchesHook.AddBatchSharedList | src/hooks/useBatches.ts:14-25 | when the hook's list shares the store's array, prepending the created batch acts on an array that already ends with it |
| BatchesHook.SharedListDuplicatesNewBatch | src/hooks/useBatches.ts:13-25 | with the shared array, the created batch appears both first and last, so the list holds one more entry than the store and repeats an id |
| Constants.LookupStatus | src/utils/constants.ts:24-29 | a key has an entry exactly when the table lists it, and the entry returned is the table's entry for that key |
| Constants.StatusTableCoversStatuses | src/utils/constants.ts:24-29 | the table has one entry per status, in the order harvested, processing, exported, retail, and every status has an entry |
| Constants.StatusLabels | src/utils/constants.ts:25-28 | the labels are Harvested, Processing, Exported and In Retail, with colours green, blue, yellow and purple |
| Constants.CropOptionsAreCropTypes | src/utils/constants.ts:1-5 | the crop choices are exactly coffee, tea and flowers, in that order |
| BatchList.StatusColor | src/components/farmer/BatchList.tsx:16-19 | a known status shows its configured colour, and an unknown one shows gray |
| BatchList.StatusLabel | src/components/farmer/BatchList.tsx:21-24 | a known status shows its configured label, and an unknown one shows the raw status string |
| BatchList.StoredStatusHasConfiguredLabel | src/components/farmer/BatchList.tsx:16-24 | a batch's own status never uses the fallbacks, and its label differs from the raw name |
| BatchList.CountNoun | src/components/farmer/BatchList.tsx:49 | the count reads "batch" for exactly one batch and "batches" otherwise |
| BatchList.CurrentWeightNote | src/components/farmer/BatchList.tsx:91-95 | the current-weight note appears exactly when the current weight is truthy and differs from the initial weight, and it shows that weight |
| BatchList.LastUpdateLine | src/components/farmer/BatchList.tsx:109-117 | the last-update line appears exactly for a non-empty journey. It shows the last step's time and its action. An action without underscores is shown as it is; otherwise the first underscore becomes a space and every other character is kept |
| BatchList.LastUpdateKeepsLaterUnderscores | src/components/farmer/BatchList.tsx:114 | an action with two or more underscores still shows an underscore in the last-update line |
| BatchList.ReadyForExportLastUpdate | src/components/farmer/BatchList.tsx:114 | a READY_FOR_EXPORT last step is shown as "READY FOR_EXPORT" |
| BatchList.CardFor | src/components/farmer/BatchList.tsx:70-120 | a card shows the batch's id, crop, variety, weight, location, harvest date and farmer name. Its label and colour are its status's configured entry. The grade badge appears exactly for a truthy grade and shows it. The weight note appears exactly when the current weight is truthy and differs from the initial weight. The last-update line is the one `LastUpdateLine` derives from the journey |
| BatchList.View | src/components/farmer/BatchList.tsx:26-124 | an empty list shows the empty state. Otherwise the view shows the count with "batch" for exactly one batch and "batches" otherwise, and, in list order, exactly the card `CardFor` builds for each batch |
| BatchList.WeightNoteFollowsLedger | src/components/farmer/BatchList.tsx:91 | a new batch has no weight note and shows HARVESTED as last update. After an update recording a truthy weight different from the initial one, the note shows that weight |
| JourneyTimeline.Title | src/components/consumer/ProductJourney.tsx:204 | a row title is the action with every underscore made a space and every letter lower-cased, one character for one |
| JourneyTimeline.TitleIsNormalised | src/components/consumer/ProductJourney.tsx:204 | no title contains an underscore or an upper-case ASCII letter |
| JourneyTimeline.Description | src/components/consumer/ProductJourney.tsx:208 | a row shows the step's notes when they are truthy, and "Processing step completed" otherwise |
| JourneyTimeline.Chips | src/components/consumer/ProductJourney.tsx:212-224 | each present number takes one place: the weight first, the cupping score last, and a truthy moisture string between them. A number shows its chip when truthy, and the stray "0" that React renders for `0 && …` when it is zero. An absent number and an empty moisture string show nothing, so no other chip appears |
| JourneyTimeline.Timeline | src/components/consumer/ProductJourney.tsx:186-248 | there is one row per step, in stored order. Row i is numbered i+1, shows the step's title, time, description and actor name, and has the step's chips exactly when the step has data. Every step row but the last has a connector. A final "Ready for you" row is numbered journey length + 1 |
| JourneyTimeline.EmptyJourneyShowsOnlyReady | src/components/consumer/ProductJourney.tsx:229-243 | an empty journey still shows the "Ready for you" row, numbered 1 |
| JourneyTimeline.TimelineAfterAppend | src/components/consumer/ProductJourney.tsx:191-197 | appending a step leaves earlier rows as they were, except that the previous last step row gains its connector. The new row takes the old "Ready" number, and "Ready" moves down by one |
| JourneyTimeline.UpdateAddsOneRow | src/components/consumer/ProductJourney.tsx:191-208 | a store update adds exactly one row before "Ready for you", titled from the update's action and described by its notes or the default text |
| StatusUpdateForm.InitialForm | src/components/processor/StatusUpdate.tsx:24-31 | the initial form has the given batch id or "", the first listed action, and empty measurements and notes |
| StatusUpdateForm.EffectiveWeight | src/components/processor/StatusUpdate.tsx:48 | the form weight and the displayed weight are the current weight when truthy, and the initial weight otherwise |
| StatusUpdateForm.LoadBatch | src/components/processor/StatusUpdate.tsx:39-56 | a found batch is displayed and the form takes its id and effective weight. When nothing is found, nothing changes |
| StatusUpdateForm.ResetForm | src/components/processor/StatusUpdate.tsx:69-76 | after a submit the form keeps the batch id, returns to PROCESSING_STARTED, and clears moisture, cupping and notes |
| StatusUpdateForm.Submit | src/components/processor/StatusUpdate.tsx:58-82 | with no batch loaded, submit does nothing. A failed store update changes nothing. A successful one writes the store, displays the batch reloaded from the new store (the old one if the reload finds nothing), and resets the form from it. When the form names the displayed batch, the batch displayed afterwards is the one the update returned |
| StatusUpdateForm.SubmitCarriesRecordedWeight | src/components/processor/StatusUpdate.tsx:64-76 | after submitting a truthy weight for the displayed batch, the reset form starts from the weight the store recorded |
| StatusUpdateForm.ProcessingActionStatuses | src/components/processor/StatusUpdate.tsx:12-17 | through the store's rule, the two processing actions give processing, READY_FOR_EXPORT gives exported, and QUALITY_CHECK keeps the status |
| StatusUpdateForm.Preview | src/components/processor/StatusUpdate.tsx:245-259 | the preview under "1001" names the displayed batch, the selected action and the fixed actor processor_001 / Processing Station. It copies the four form fields verbatim into the data fields |
| StatusUpdateForm.PreviewMatchesRecordedStep | src/components/processor/StatusUpdate.tsx:245-259 | submitting the previewed form records the preview's action and data, with the same actor name but a different actor id. The preview shows its render time and the step the store's own time, two separate clock readings |
| Formatters.BatchIdPrefix | src/utils/formatters.ts:15-16 | coffee gives ETH-COFFEE, tea gives ETH-TEA, and any other string gives ETH-FLOWERS |
| Formatters.GenerateBatchId | src/utils/formatters.ts:14-19 | the id starts with the crop's prefix, has a dash right after it, and ends with the random part upper-cased character by character |
| Formatters.GeneratedIdMatchesStoreId | src/utils/formatters.ts:15-16 | for each crop type the generated id equals the one the store builds from the same random part |
| Formatters.FormatGps | src/utils/formatters.ts:9-12 | the result starts with the input's first field, which holds no ", ", followed by ", " |
| Formatters.FormatGpsIsPrefix | src/utils/formatters.ts:9-12 | when the input has a separator, the result is a prefix of the input |
| Formatters.FormatGpsOneSeparator | src/utils/formatters.ts:9-12 | a GPS string with exactly one ", " separator comes back unchanged |
| Formatters.FormatGpsDropsLaterFields | src/utils/formatters.ts:10-11 | with more separators only the first two fields are kept, neither holds a separator, and the dropped tail is exactly what follows them in the input |
| Formatters.FormatGpsNoSeparator | src/utils/formatters.ts:9-12 | a GPS string with no separator gets ", undefined" appended |

## Findings

| source | as written | input that shows it | evidently intended | confidence | as-written member | corrected member |
|---|---|---|---|---|---|---|
| src/hooks/useBatches.ts:25 | `getAllBatches` returns the store's own array and `loadBatches` keeps that reference. `createBatch` pushes onto the array, so `[newBatch, ...prev]` spreads an array that already ends with the new batch | a successful `loadBatches`, then `addBatch` of any harvest | the list becomes the new batch followed by the previous list, each batch once | medium, not executed | BatchesHook.SharedListDuplicatesNewBatch | BatchesHook.LoadThenAddListsEachBatchOnce |

The rest of the model uses the corrected reading: `LoadBatches` takes the
store contents as a value, as a copy would.

## Left out

- Timing and asynchrony: all delays and promises are left out, and every operation is synchronous. The transient `isLoading = true` during a load is not modelled; only the final value is.
- Randomness and clock: the random suffix and `new Date().toISOString()` are parameters. The store's operations accept any string as the suffix. `Ledger.RandomSuffix` states what `Math.random().toString(36).substr(2, 6)` can produce, and `MockBatches.SeedIdsNotGenerated` relies on it. The formatter's nine-character random part is not constrained.
- Floating point: numbers are exact reals. NaN, which JavaScript treats as falsy, is not represented.
- Case mapping: upper- and lower-casing cover ASCII letters only.
- `formatDate`, which depends on the locale and `Date`, is left out. Dates and timestamps are plain strings.
- The QR payload helpers, the wallet and tipping components, and the pure layout and routing components are not part of this model.
- The journey fallbacks in src/components/consumer/ProductJourney.tsx:29-79 and src/components/processor/BatchScanner.tsx:30-50 fabricate a batch when none is found. They are presentation conveniences and are not modelled.
- The CSS `capitalize` on timeline titles is left out, as are icons, animation, card selection and click handlers. `COFFEE_VARIETIES`, `PROCESS_METHODS` and the crop-type icons are not modelled either.
- Input parsing in the processor form (`parseInt`, `parseFloat`, `handleChange`) is left out. Form values enter the model as already-typed fields. A cleared weight or cupping field becomes 0 there (src/components/processor/StatusUpdate.tsx:174,203); the model admits that value, and `JourneyTimeline.Chips` shows what the timeline renders for it.
- Console logging is not modelled, and neither are the `isLoading`/`isSubmitting` flags of the processor form.
- The processor form's own batches-hook list is not modelled: that component never displays it.
- Concurrency, per-batch locking, versioning and conflict errors are left out. The code has none of them.
- Request validation, out-of-order and regression errors, and id collision checks are left out. The code has none of them, and `LedgerGaps` shows their absence.
- The metadata lookup by policy id is left out. No core code reads `metadata`, `policyId` or `assetName`; they are only carried along.
- GetAllBatches: it is the identity on the store and carries no contract. The sharing of the returned array is modelled in `BatchesHook.AddBatchSharedList`.
- StatusUpdateForm.Submit: the displayed batch object is the store's own object, which the update changes in place, and the reset form reads it after the reload. The model has no object identity: it reloads the batch by id from the new store and resets the form from that value, which carries the same fields as the mutated object.
