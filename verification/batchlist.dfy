/** The farmer's batch list: an empty state when there are no batches,
    otherwise a count line and one summary card per batch with its status
    label and colour, an optional current-weight annotation and an optional
    "last update" line. */
module BatchList {
  import opened Wrappers
  import opened Strings
  import opened SupplyChain
  import opened Constants
  import Ledger

  /** `getStatusColor`: the configured colour, or gray for an unknown status. */
  function StatusColor(status: string): (c: string)
    ensures LookupStatus(status).Some? ==> c == LookupStatus(status).value.color
    ensures LookupStatus(status).None? ==> c == "gray"
  {
    match LookupStatus(status)
    case Some(config) => if |config.color| > 0 then config.color else "gray"
    case None => "gray"
  }

  /** `getStatusLabel`: the configured label, or the raw status string for an
      unknown status. */
  function StatusLabel(status: string): (l: string)
    ensures LookupStatus(status).Some? ==> l == LookupStatus(status).value.caption
    ensures LookupStatus(status).None? ==> l == status
  {
    match LookupStatus(status)
    case Some(config) => if |config.caption| > 0 then config.caption else status
    case None => status
  }

  /** A batch's own status never takes the fallbacks: it is shown with its
      configured label and colour, and the label differs from the raw name. */
  lemma StoredStatusHasConfiguredLabel(s: Status)
    ensures StatusLabel(StatusName(s)) == LookupStatus(StatusName(s)).value.caption != StatusName(s)
    ensures StatusColor(StatusName(s)) == LookupStatus(StatusName(s)).value.color != "gray"
  {
    StatusTableCoversStatuses();
  }

  /** The noun after the batch count. */
  function CountNoun(n: nat): (s: string)
    ensures n == 1 <==> s == "batch"
    ensures n != 1 <==> s == "batches"
  {
    "batch" + (if n != 1 then "es" else "")
  }

  /** The "(… kg current)" annotation: shown only when the current weight is
      truthy and differs from the initial weight. */
  function CurrentWeightNote(b: Batch): (r: Option<real>)
    ensures r.Some? <==> TruthyNumber(b.currentWeight) && b.currentWeight.value != b.initialWeight
    ensures r.Some? ==> r == b.currentWeight
  {
    if TruthyNumber(b.currentWeight) && b.currentWeight.value != b.initialWeight
    then b.currentWeight else None
  }

  datatype LastUpdate = LastUpdate(action: string, timestamp: string)

  /** The "Last update" line: shown only for a non-empty journey, from its
      last step, with the first underscore of the action made a space. */
  function LastUpdateLine(b: Batch): (r: Option<LastUpdate>)
    ensures r.Some? <==> |b.journey| > 0
    ensures r.Some? ==> var last := b.journey[|b.journey| - 1];
                        && r.value.timestamp == last.timestamp
                        && |r.value.action| == |last.action|
                        && ('_' !in last.action ==> r.value.action == last.action)
                        && ('_' in last.action ==>
                              r.value.action == last.action[FirstIndex(last.action, '_') := ' '])
  {
    if |b.journey| == 0 then None
    else
      var last := b.journey[|b.journey| - 1];
      var shown := ReplaceFirst(last.action, '_', ' ');
      assert '_' in last.action ==> shown == last.action[FirstIndex(last.action, '_') := ' '] by {
        if '_' in last.action {
          ReplaceFirstAtFirstIndex(last.action, '_', ' ');
        }
      }
      Some(LastUpdate(shown, last.timestamp))
  }

  /** Only the first underscore is replaced: an action with two or more
      underscores still shows one. */
  lemma LastUpdateKeepsLaterUnderscores(b: Batch, k: nat)
    requires |b.journey| > 0
    requires var a := b.journey[|b.journey| - 1].action;
             k < |a| && a[k] == '_' && '_' in a[..k]
    ensures '_' in LastUpdateLine(b).value.action
  {
    var a := b.journey[|b.journey| - 1].action;
    var f := FirstIndex(a, '_');
    assert f < k by {
      var j :| 0 <= j < k && a[..k][j] == '_';
      assert a[j] == '_';
    }
    assert LastUpdateLine(b).value.action[k] == '_';
  }

  /** A batch whose last step is `READY_FOR_EXPORT` shows `READY FOR_EXPORT`. */
  lemma ReadyForExportLastUpdate(b: Batch)
    requires |b.journey| > 0 && b.journey[|b.journey| - 1].action == "READY_FOR_EXPORT"
    ensures LastUpdateLine(b).value.action == "READY FOR_EXPORT"
  {
    ReadyForExportFirstUnderscore(b.journey[|b.journey| - 1].action);
  }

  lemma ReadyForExportFirstUnderscore(s: string)
    requires s == "READY_FOR_EXPORT"
    ensures ReplaceFirst(s, '_', ' ') == "READY FOR_EXPORT"
  {
    assert s[5] == '_' && forall j :: 0 <= j < 5 ==> s[j] != '_';
    FirstIndexUnique(s, '_', 5);
    ReplaceFirstAtFirstIndex(s, '_', ' ');
  }

  /** One batch card. */
  datatype Card = Card(
    id: string,
    cropType: string,
    variety: string,
    statusLabel: string,
    statusColor: string,
    gradeBadge: Option<string>,
    initialWeight: real,
    currentWeightNote: Option<real>,
    location: string,
    harvestDate: string,
    farmerName: string,
    lastUpdate: Option<LastUpdate>)

  /** The card of one batch: its own status's configured label and colour,
      the grade badge only for a truthy grade, the current-weight note, and
      the last-update line. */
  function CardFor(b: Batch): (c: Card)
    ensures c.id == b.id && c.cropType == CropName(b.cropType) && c.variety == b.variety
    ensures LookupStatus(StatusName(b.status)) == Some(StatusConfig(c.statusLabel, c.statusColor))
    ensures c.gradeBadge.Some? <==> TruthyString(b.grade)
    ensures c.gradeBadge.Some? ==> c.gradeBadge == b.grade
    ensures c.currentWeightNote.Some? <==> TruthyNumber(b.currentWeight) && b.currentWeight.value != b.initialWeight
    ensures c.currentWeightNote.Some? ==> c.currentWeightNote == b.currentWeight
    ensures c.lastUpdate.Some? <==> |b.journey| > 0
    ensures c.lastUpdate == LastUpdateLine(b)
    ensures c.initialWeight == b.initialWeight && c.location == b.location
    ensures c.harvestDate == b.harvestDate && c.farmerName == b.farmer.name
  {
    StoredStatusHasConfiguredLabel(b.status);
    Card(b.id, CropName(b.cropType), b.variety,
         StatusLabel(StatusName(b.status)), StatusColor(StatusName(b.status)),
         if TruthyString(b.grade) then b.grade else None,
         b.initialWeight, CurrentWeightNote(b), b.location, b.harvestDate,
         b.farmer.name, LastUpdateLine(b))
  }

  datatype ListView = EmptyState | Listing(count: nat, noun: string, cards: seq<Card>)

  /** The whole list: the empty state exactly when there are no batches,
      otherwise the count, its noun and one card per batch in list order. */
  function View(batches: seq<Batch>): (v: ListView)
    ensures v.EmptyState? <==> |batches| == 0
    ensures v.Listing? ==> v.count == |batches| && v.noun == CountNoun(|batches|)
    ensures v.Listing? ==> (v.noun == "batch" <==> |batches| == 1)
    ensures v.Listing? ==> |v.cards| == |batches|
    ensures v.Listing? ==> forall i :: 0 <= i < |batches| ==> v.cards[i] == CardFor(batches[i])
  {
    if |batches| == 0 then EmptyState
    else Listing(|batches|, CountNoun(|batches|), seq(|batches|, i requires 0 <= i < |batches| => CardFor(batches[i])))
  }

  /** A newly registered batch shows no current-weight annotation and its
      harvest as last update; after an update that records a truthy weight
      different from the initial one, the annotation shows that weight. */
  lemma WeightNoteFollowsLedger(h: HarvestData, suffix: string, now: string, u: StatusUpdateData, later: string)
    requires TruthyNumber(u.newWeight) && u.newWeight.value != h.weight
    ensures var b := Ledger.NewBatch(h, suffix, now);
            && CurrentWeightNote(b).None?
            && LastUpdateLine(b) == Some(LastUpdate("HARVESTED", now))
            && CurrentWeightNote(Ledger.ApplyUpdate(b, u, later)) == u.newWeight
  {
    var b := Ledger.NewBatch(h, suffix, now);
    assert '_' !in b.journey[0].action;
  }
}
