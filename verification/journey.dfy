/** The consumer-facing journey timeline: one numbered row per journey step,
    in stored order, followed by a synthetic "Ready for you" row. A pure
    projection of the journey; the store is not involved. */
module JourneyTimeline {
  import opened Wrappers
  import opened Strings
  import opened SupplyChain
  import Ledger

  const DefaultDescription := "Processing step completed"

  /** What a step row shows for one measurement. `ZeroText` is the bare text
      `0` that React renders for `{0 && <span/>}`, when a weight or a cupping
      score of zero was recorded. */
  datatype Chip =
    | WeightChip(kg: real)
    | MoistureChip(text: string)
    | CuppingChip(score: real)
    | ZeroText

  datatype Row =
    | StepRow(
        number: nat,
        title: string,
        timestamp: string,
        description: string,
        actorName: string,
        connector: bool,
        chips: Option<seq<Chip>>)
    | ReadyRow(number: nat)

  /** A step's title: every underscore becomes a space, then lower case. */
  function Title(action: string): (t: string)
    ensures |t| == |action|
    ensures forall i :: 0 <= i < |action| ==>
              t[i] == (if action[i] == '_' then ' ' else LowerChar(action[i]))
  {
    ToLower(ReplaceAll(action, '_', ' '))
  }

  /** A title has neither underscores nor upper-case ASCII letters. */
  lemma TitleIsNormalised(action: string)
    ensures '_' !in Title(action)
    ensures forall i :: 0 <= i < |action| ==> !('A' <= Title(action)[i] <= 'Z')
  {
  }

  /** The step's notes when truthy, otherwise the default description. */
  function Description(step: JourneyStep): (d: string)
    ensures step.data.Some? && TruthyString(step.data.value.notes) ==> d == step.data.value.notes.value
    ensures !(step.data.Some? && TruthyString(step.data.value.notes)) ==> d == DefaultDescription
  {
    if step.data.Some? && TruthyString(step.data.value.notes) then step.data.value.notes.value
    else DefaultDescription
  }

  /** The chips shown for a step's data: one per truthy measurement, and the
      stray text `0` for each number recorded as zero. An empty moisture
      string renders nothing. */
  function Chips(d: StepData): (cs: seq<Chip>)
    ensures WeightChip(d.newWeight.GetOr(0.0)) in cs <==> TruthyNumber(d.newWeight)
    ensures MoistureChip(d.moistureContent.GetOr("")) in cs <==> TruthyString(d.moistureContent)
    ensures CuppingChip(d.cuppingScore.GetOr(0.0)) in cs <==> TruthyNumber(d.cuppingScore)
    ensures ZeroText in cs <==> d.newWeight == Some(0.0) || d.cuppingScore == Some(0.0)
    // Each present number takes one place, weight first and cupping last;
    // a truthy moisture string sits between them.
    ensures |cs| == (if d.newWeight.Some? then 1 else 0)
                    + (if TruthyString(d.moistureContent) then 1 else 0)
                    + (if d.cuppingScore.Some? then 1 else 0)
    ensures d.newWeight.Some? ==>
              cs[0] == (if TruthyNumber(d.newWeight) then WeightChip(d.newWeight.value) else ZeroText)
    ensures TruthyString(d.moistureContent) ==>
              cs[if d.newWeight.Some? then 1 else 0] == MoistureChip(d.moistureContent.value)
    ensures d.cuppingScore.Some? ==>
              cs[|cs| - 1] == (if TruthyNumber(d.cuppingScore) then CuppingChip(d.cuppingScore.value) else ZeroText)
  {
    (if TruthyNumber(d.newWeight) then [WeightChip(d.newWeight.value)]
     else if d.newWeight == Some(0.0) then [ZeroText] else [])
    + (if TruthyString(d.moistureContent) then [MoistureChip(d.moistureContent.value)] else [])
    + (if TruthyNumber(d.cuppingScore) then [CuppingChip(d.cuppingScore.value)]
       else if d.cuppingScore == Some(0.0) then [ZeroText] else [])
  }

  /** The row for step `i` of a journey. */
  function StepRowAt(journey: seq<JourneyStep>, i: nat): (r: Row)
    requires i < |journey|
    ensures r.StepRow?
  {
    var step := journey[i];
    StepRow(i + 1, Title(step.action), step.timestamp, Description(step), step.actor.name,
            i < |journey| - 1,
            match step.data case Some(d) => Some(Chips(d)) case None => None)
  }

  /** The whole timeline. */
  function Timeline(journey: seq<JourneyStep>): (rows: seq<Row>)
    ensures |rows| == |journey| + 1
    ensures forall i :: 0 <= i < |journey| ==>
              && rows[i].StepRow?
              && rows[i].number == i + 1
              && rows[i].title == Title(journey[i].action)
              && rows[i].timestamp == journey[i].timestamp
              && rows[i].description == Description(journey[i])
              && (rows[i].connector <==> i < |journey| - 1)
              && rows[i].actorName == journey[i].actor.name
              && rows[i].chips == (if journey[i].data.Some? then Some(Chips(journey[i].data.value)) else None)
    ensures rows[|journey|] == ReadyRow(|journey| + 1)
  {
    seq(|journey|, i requires 0 <= i < |journey| => StepRowAt(journey, i)) + [ReadyRow(|journey| + 1)]
  }

  /** An empty journey still shows the "Ready for you" row, numbered 1. */
  lemma EmptyJourneyShowsOnlyReady()
    ensures Timeline([]) == [ReadyRow(1)]
  {
  }

  /** Appending a step (what a status update does) keeps every earlier row
      but the previous last one as it was; that one gains its connector. The
      new step takes the old "Ready" row's number, and "Ready" moves down. */
  lemma {:induction false} TimelineAfterAppend(journey: seq<JourneyStep>, step: JourneyStep)
    ensures var before := Timeline(journey);
            var after := Timeline(journey + [step]);
            && |after| == |before| + 1
            && (forall i :: 0 <= i < |journey| - 1 ==> after[i] == before[i])
            && (|journey| > 0 ==> after[|journey| - 1] == before[|journey| - 1].(connector := true))
            && after[|journey|].number == before[|journey|].number
            && after[|journey| + 1] == ReadyRow(|journey| + 2)
  {
    var j' := journey + [step];
    forall i | 0 <= i < |journey|
      ensures var r := StepRowAt(journey, i);
              r.StepRow? && StepRowAt(j', i) == r.(connector := i < |journey|)
    {
      assert j'[i] == journey[i];
    }
  }

  /** The row a status update adds to the batch's timeline: the update's
      action as title, its notes or the default description, and no
      connector, just before "Ready for you". */
  lemma UpdateAddsOneRow(b: Batch, u: StatusUpdateData, now: string)
    ensures var rows := Timeline(Ledger.ApplyUpdate(b, u, now).journey);
            var n := |b.journey|;
            && |rows| == n + 2
            && rows[n].title == Title(u.action)
            && rows[n].description == (if TruthyString(u.notes) then u.notes.value else DefaultDescription)
            && !rows[n].connector
            && rows[n + 1] == ReadyRow(n + 2)
  {
  }
}
