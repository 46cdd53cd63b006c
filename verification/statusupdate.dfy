/** The processor's status-update form: the selectable actions, the form
    state loaded from a batch, the submit step that sends the form to the
    store and resets it, and the ledger payload shown as a preview. */
module StatusUpdateForm {
  import opened Wrappers
  import opened Strings
  import opened SupplyChain
  import opened Ledger

  /** One selectable processing action. */
  datatype ActionOption = ActionOption(value: string, caption: string, description: string)

  /** `PROCESSING_ACTIONS`, in display order. */
  const ProcessingActions: seq<ActionOption> := [
    ActionOption("PROCESSING_STARTED", "Start Processing", "Begin washing/drying process"),
    ActionOption("PROCESSING_COMPLETE", "Complete Processing", "Finish processing stage"),
    ActionOption("QUALITY_CHECK", "Quality Check", "Perform quality assessment"),
    ActionOption("READY_FOR_EXPORT", "Ready for Export", "Prepare for shipment")
  ]

  const DefaultAction := "PROCESSING_STARTED"

  /** The fixed actor the preview payload names. */
  const PreviewActor := Actor("processor_001", "Processing Station")

  /** The batch on display, if any, and the form's contents. */
  datatype ProcessorState = ProcessorState(batch: Option<Batch>, form: StatusUpdateData)

  /** The form before any batch is loaded: the given batch id or the empty
      string, the default action, and empty measurements and notes. */
  function InitialForm(batchIdProp: Option<string>): (f: StatusUpdateData)
    ensures f.batchId == batchIdProp.GetOr("")
    ensures f.action == DefaultAction == ProcessingActions[0].value
    ensures f.newWeight.None? && f.cuppingScore.None?
    ensures f.moistureContent == Some("") && f.notes == Some("")
  {
    StatusUpdateData(batchIdProp.GetOr(""), DefaultAction, None, Some(""), None, Some(""))
  }

  /** `currentWeight || initialWeight`: the weight the form starts from and
      the header shows. */
  function EffectiveWeight(b: Batch): (w: real)
    ensures TruthyNumber(b.currentWeight) ==> w == b.currentWeight.value
    ensures !TruthyNumber(b.currentWeight) ==> w == b.initialWeight
  {
    if TruthyNumber(b.currentWeight) then b.currentWeight.value else b.initialWeight
  }

  /** `loadBatch`: a found batch is put on display and the form takes its id
      and effective weight; when nothing is found nothing changes. */
  function LoadBatch(st: ProcessorState, id: string, found: Option<Batch>): (r: ProcessorState)
    ensures found.None? ==> r == st
    ensures found.Some? ==> r.batch == found
    ensures found.Some? ==> r.form == st.form.(batchId := id, newWeight := Some(EffectiveWeight(found.value)))
  {
    match found
    case None => st
    case Some(b) => ProcessorState(Some(b), st.form.(batchId := id, newWeight := Some(EffectiveWeight(b))))
  }

  /** The form after a successful submit. */
  function ResetForm(b: Batch): (f: StatusUpdateData)
    ensures f.batchId == b.id && f.action == DefaultAction
    ensures f.newWeight == Some(EffectiveWeight(b))
    ensures f.moistureContent == Some("") && f.cuppingScore.None? && f.notes == Some("")
  {
    StatusUpdateData(b.id, DefaultAction, Some(EffectiveWeight(b)), Some(""), None, Some(""))
  }

  datatype SubmitOutcome = SubmitOutcome(state: ProcessorState, store: seq<Batch>)

  /** `handleSubmit`. Without a loaded batch it does nothing. Otherwise the
      form goes to the store; on failure nothing changes, on success the
      batch is reloaded from the store and the form reset from it. (The batch
      object on display is the store's own object, which the update changed
      in place, so the reset reads the updated weights.) */
  function Submit(st: ProcessorState, store: seq<Batch>, now: string): (r: SubmitOutcome)
    ensures st.batch.None? ==> r == SubmitOutcome(st, store)
    ensures st.batch.Some? && UpdateBatchStatus(store, st.form, now).result.Failure?
            ==> r == SubmitOutcome(st, store)
    ensures st.batch.Some? && UpdateBatchStatus(store, st.form, now).result.Success?
            ==> && r.store == UpdateBatchStatus(store, st.form, now).store
                && r.state.batch.Some?
                && r.state.form == ResetForm(r.state.batch.value)
                && r.state.form.batchId == st.batch.value.id
    ensures st.batch.Some? && UpdateBatchStatus(store, st.form, now).result.Success?
            ==> var found := GetBatchById(r.store, st.batch.value.id);
                && (found.Some? ==> r.state.batch == found)
                && (found.None? ==> r.state.batch == st.batch)
    ensures st.batch.Some? && st.form.batchId == st.batch.value.id
            && UpdateBatchStatus(store, st.form, now).result.Success?
            ==> r.state.batch == Some(UpdateBatchStatus(store, st.form, now).result.value)
  {
    match st.batch
    case None => SubmitOutcome(st, store)
    case Some(b) =>
      var o := UpdateBatchStatus(store, st.form, now);
      if o.result.Failure? then SubmitOutcome(st, store)
      else
        UpdateThenLookup(store, st.form, now);
        var reloaded := LoadBatch(st, b.id, GetBatchById(o.store, b.id));
        SubmitOutcome(reloaded.(form := ResetForm(reloaded.batch.value)), o.store)
  }

  /** After a successful submit of a loaded batch whose form carried a truthy
      weight, the reset form starts from that weight: the store recorded it
      as the batch's current weight. */
  lemma SubmitCarriesRecordedWeight(st: ProcessorState, store: seq<Batch>, now: string, i: nat)
    requires st.batch.Some? && IsFirstMatch(store, st.form.batchId, i)
    requires st.form.batchId == st.batch.value.id
    requires TruthyNumber(st.form.newWeight)
    ensures Submit(st, store, now).state.form.newWeight == st.form.newWeight
  {
    var o := UpdateBatchStatus(store, st.form, now);
    assert IsFirstMatch(o.store, st.batch.value.id, i);
    assert GetBatchById(o.store, st.batch.value.id) == Some(o.store[i]);
  }

  /** The selectable actions, through the store's status rule: both
      processing actions give processing, `READY_FOR_EXPORT` gives exported,
      and `QUALITY_CHECK` keeps whatever status the batch had. */
  lemma ProcessingActionStatuses(prior: Status)
    ensures NextStatus(ProcessingActions[0].value, prior) == Processing
    ensures NextStatus(ProcessingActions[1].value, prior) == Processing
    ensures NextStatus(ProcessingActions[2].value, prior) == prior
    ensures NextStatus(ProcessingActions[3].value, prior) == Exported
  {
    ProcessingStartedStatus(ProcessingActions[0].value, prior);
    ProcessingCompleteStatus(ProcessingActions[1].value, prior);
    QualityCheckStatus(ProcessingActions[2].value, prior);
    ReadyForExportStatus(ProcessingActions[3].value, prior);
  }

  /** The preview's entry under key "1001". */
  datatype PreviewEntry = PreviewEntry(
    batchId: string, action: string, timestamp: string, actor: Actor, data: StepData)

  datatype TxPreview = TxPreview(key: string, entry: PreviewEntry)

  /** The transaction preview shown under the form. */
  function Preview(b: Batch, form: StatusUpdateData, now: string): (p: TxPreview)
    ensures p.key == "1001" && p.entry.batchId == b.id && p.entry.action == form.action
    ensures p.entry.actor == PreviewActor && p.entry.timestamp == now
    ensures p.entry.data == StepData(form.newWeight, form.moistureContent, form.cuppingScore, form.notes)
  {
    TxPreview("1001", PreviewEntry(b.id, form.action, now, PreviewActor,
                                   StepData(form.newWeight, form.moistureContent, form.cuppingScore, form.notes)))
  }

  /** Submitting the previewed form records a step with the preview's action
      and data, but under a different actor id: the store writes
      `current_processor` where the preview shows `processor_001`. The two
      times are separate readings of the clock: the preview shows the time it
      was rendered, the step the time the store wrote it. */
  lemma PreviewMatchesRecordedStep(st: ProcessorState, store: seq<Batch>, shownAt: string, storedAt: string, i: nat)
    requires st.batch.Some? && IsFirstMatch(store, st.form.batchId, i)
    ensures var p := Preview(st.batch.value, st.form, shownAt).entry;
            var recorded := Submit(st, store, storedAt).store[i];
            var step := recorded.journey[|recorded.journey| - 1];
            && step.action == p.action && step.data == Some(p.data)
            && p.timestamp == shownAt && step.timestamp == storedAt
            && step.actor.name == p.actor.name && step.actor.id != p.actor.id
  {
  }
}
