/** The two pure formatting helpers: the batch id a crop type gets, with
    the random part as a parameter, and the GPS string shortened to its
    first two comma-separated fields. */
module Formatters {
  import opened Strings
  import opened SupplyChain
  import Ledger

  const GpsSeparator := ", "

  /** The id prefix for a crop type string: coffee and tea have their own,
      every other string gets the flowers prefix. */
  function BatchIdPrefix(cropType: string): (p: string)
    ensures cropType == "coffee" ==> p == "ETH-COFFEE"
    ensures cropType == "tea" ==> p == "ETH-TEA"
    ensures cropType != "coffee" && cropType != "tea" ==> p == "ETH-FLOWERS"
  {
    if cropType == "coffee" then "ETH-COFFEE"
    else if cropType == "tea" then "ETH-TEA"
    else "ETH-FLOWERS"
  }

  /** `generateBatchId`: the prefix, a dash and the upper-cased random part. */
  function GenerateBatchId(cropType: string, randomPart: string): (id: string)
    ensures var n := |BatchIdPrefix(cropType)|;
            && |id| == n + 1 + |randomPart|
            && id[..n] == BatchIdPrefix(cropType)
            && id[n] == '-'
            && forall k :: 0 <= k < |randomPart| ==> id[n + 1 + k] == UpperChar(randomPart[k])
  {
    BatchIdPrefix(cropType) + "-" + ToUpper(randomPart)
  }

  /** For each of the three crop types the prefix is the one the store builds
      when registering a harvest, so both produce the same id from the same
      random part. */
  lemma GeneratedIdMatchesStoreId(c: CropType, randomPart: string)
    ensures GenerateBatchId(CropName(c), randomPart) == Ledger.BatchId(c, randomPart)
  {
    var head := BatchIdPrefix(CropName(c)) + "-";
    assert head == "ETH-" + Ledger.CropIdPart(c) + "-" by {
      match c
      case Coffee =>
      case Tea =>
      case Flowers =>
    }
  }


  /** `formatGPS`: the first two fields of the string split at ", ", joined
      again with ", ". A string with no separator has no second field, which
      the template literal renders as `undefined`. */
  function FormatGps(gps: string): (r: string)
    ensures var first := Split(gps, GpsSeparator)[0];
            && !Contains(first, GpsSeparator)
            && |first| + 2 <= |r| && r[..|first|] == first
            && r[|first|..|first| + 2] == GpsSeparator
  {
    var parts := Split(gps, GpsSeparator);
    SplitPiecesLackSeparator(gps, GpsSeparator);
    parts[0] + GpsSeparator + (if |parts| >= 2 then parts[1] else "undefined")
  }

  /** Whenever the input has a separator, the result is a prefix of it. */
  lemma FormatGpsIsPrefix(gps: string)
    requires Contains(gps, GpsSeparator)
    ensures |FormatGps(gps)| <= |gps| && FormatGps(gps) == gps[..|FormatGps(gps)|]
  {
    var parts := Split(gps, GpsSeparator);
    assert |parts| >= 2 by {
      var i := IndexOf(gps, GpsSeparator).value;
      SplitStep(gps, GpsSeparator, i);
    }
    if |parts| == 2 {
      FormatGpsOneSeparator(gps);
    } else {
      FormatGpsDropsLaterFields(gps);
    }
  }

  /** A string with exactly one separator comes back unchanged. */
  lemma {:induction false} FormatGpsOneSeparator(gps: string)
    requires |Split(gps, GpsSeparator)| == 2
    ensures FormatGps(gps) == gps
  {
    var parts := Split(gps, GpsSeparator);
    JoinSplit(gps, GpsSeparator);
    assert Join(parts[1..], GpsSeparator) == parts[1];
  }

  /** With more than one separator only the first two fields are kept: the
      result followed by ", " and the dropped fields gives back the input. */
  lemma {:induction false} FormatGpsDropsLaterFields(gps: string)
    requires |Split(gps, GpsSeparator)| > 2
    ensures var parts := Split(gps, GpsSeparator);
            && FormatGps(gps) == parts[0] + GpsSeparator + parts[1]
            && !Contains(parts[0], GpsSeparator) && !Contains(parts[1], GpsSeparator)
            && gps == FormatGps(gps) + GpsSeparator + Join(parts[2..], GpsSeparator)
  {
    var parts := Split(gps, GpsSeparator);
    SplitPiecesLackSeparator(gps, GpsSeparator);
    JoinSplit(gps, GpsSeparator);
    JoinTwoHeads(parts, GpsSeparator);
  }

  /** A string with no separator gets ", undefined" appended. */
  lemma {:induction false} FormatGpsNoSeparator(gps: string)
    requires !Contains(gps, GpsSeparator)
    ensures FormatGps(gps) == gps + ", undefined"
  {
    assert IndexOf(gps, GpsSeparator).None?;
  }
}
