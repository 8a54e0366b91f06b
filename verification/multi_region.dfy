/**
 * `multi_region_scanner.py`: one scan per target region, the fold that
 * aggregates the per-region outcomes, the per-region summary and the report
 * built from it. The thread pool only changes when the scans run, not the
 * order of the results (they are collected in submission order), so the model
 * is sequential.
 */
module MultiRegion {
  import opened Wrappers
  import opened Errors
  import opened Seqs
  import opened Resources
  import opened Dicts

  const AllRegions: seq<string> := [
    "us-east-1", "us-east-2", "us-west-1", "us-west-2",
    "eu-west-1", "eu-west-2", "eu-west-3", "eu-central-1", "eu-north-1",
    "ap-south-1", "ap-northeast-1", "ap-northeast-2", "ap-northeast-3",
    "ap-southeast-1", "ap-southeast-2",
    "ca-central-1",
    "sa-east-1",
    "af-south-1",
    "me-south-1"]

  const CommonRegions: seq<string> := [
    "us-east-1", "us-west-2",
    "eu-west-1", "eu-central-1",
    "ap-northeast-1", "ap-southeast-1"]

  /** The outcome of scanning one region; `error` is set exactly when the scan failed. */
  datatype RegionScanResult = RegionScanResult(
    region: string, kind: ResourceType, scanResult: Option<ScanResult>, success: bool, error: Option<string>)

  /** `result.success and result.scan_result`: the region counts towards the totals (a ScanResult is always truthy). */
  predicate Contributes(r: RegionScanResult) {
    r.success && r.scanResult.Some?
  }

  /** The regions `scan_all_regions` scans: all of them, the given non-empty list, or the common ones. */
  function TargetRegions(regions: Option<seq<string>>, useAllRegions: bool): (targets: seq<string>)
    ensures |targets| > 0
    ensures forall i :: 0 <= i < |targets| ==> targets[i] in AllRegions || (regions.Some? && targets[i] in regions.value)
    ensures regions.Some? && |regions.value| > 0 && !useAllRegions ==> targets == regions.value
    ensures (regions.None? || |regions.value| == 0) && !useAllRegions ==> targets == CommonRegions
    ensures useAllRegions ==> targets == AllRegions
  {
    CommonRegionsListed();
    if useAllRegions then AllRegions
    else if regions.Some? && |regions.value| > 0 then regions.value
    else CommonRegions
  }

  /** Every common region is one of all the regions. */
  lemma CommonRegionsListed()
    ensures forall i :: 0 <= i < |CommonRegions| ==> CommonRegions[i] in AllRegions
  {
    assert CommonRegions[0] == AllRegions[0];
    assert CommonRegions[1] == AllRegions[3];
    assert CommonRegions[2] == AllRegions[4];
    assert CommonRegions[3] == AllRegions[7];
    assert CommonRegions[4] == AllRegions[10];
    assert CommonRegions[5] == AllRegions[13];
  }

  /**
   * `_scan_region`, given the outcome of the region's scanner: any exception
   * becomes a failed result carrying "Failed to scan <region>: <message>".
   */
  function ScanRegion(region: string, kind: ResourceType, outcome: Result<ScanResult, Error>): (r: RegionScanResult)
    ensures r.region == region && r.kind == kind
    ensures Contributes(r) <==> outcome.Ok?
    ensures r.success <==> outcome.Ok?
    ensures outcome.Ok? ==> r.scanResult == Some(outcome.value) && r.error.None?
    ensures outcome.Err? ==> r.scanResult.None? && r.error == Some("Failed to scan " + region + ": " + outcome.error.Str())
  {
    match outcome
    case Ok(s) => RegionScanResult(region, kind, Some(s), true, None)
    case Err(e) => RegionScanResult(region, kind, None, false, Some("Failed to scan " + region + ": " + e.Str()))
  }

  // ---- aggregation ----

  /** What one region adds to each total: a region that did not contribute adds 0 and counts as failed. */
  function SuccessIn(r: RegionScanResult): int {
    if Contributes(r) then 1 else 0
  }

  function FailureIn(r: RegionScanResult): int {
    if Contributes(r) then 0 else 1
  }

  function ResourcesIn(r: RegionScanResult): int {
    if Contributes(r) then r.scanResult.value.totalResources else 0
  }

  function UntaggedIn(r: RegionScanResult): int {
    if Contributes(r) then |r.scanResult.value.untaggedResources| else 0
  }

  function TaggedIn(r: RegionScanResult): int {
    if Contributes(r) then |r.scanResult.value.taggedResources| else 0
  }

  /** The five counters of the aggregation loop. */
  datatype Totals = Totals(successful: int, failed: int, resources: int, untagged: int, tagged: int)

  /** The totals as sums over the region results. */
  function SumTotals(rs: seq<RegionScanResult>): Totals {
    Totals(SumOf(rs, SuccessIn), SumOf(rs, FailureIn), SumOf(rs, ResourcesIn), SumOf(rs, UntaggedIn), SumOf(rs, TaggedIn))
  }

  /** One pass of the aggregation loop's body. */
  function Step(t: Totals, r: RegionScanResult): Totals {
    if Contributes(r) then
      Totals(t.successful + 1, t.failed, t.resources + r.scanResult.value.totalResources,
        t.untagged + |r.scanResult.value.untaggedResources|, t.tagged + |r.scanResult.value.taggedResources|)
    else
      Totals(t.successful, t.failed + 1, t.resources, t.untagged, t.tagged)
  }

  /** The aggregation loop of `scan_all_regions`, which computes the sums over the region results. */
  method Aggregate(rs: seq<RegionScanResult>) returns (t: Totals)
    ensures t == SumTotals(rs)
  {
    t := Totals(0, 0, 0, 0, 0);
    var i := 0;
    while i < |rs|
      invariant 0 <= i <= |rs|
      invariant t == SumTotals(rs[..i])
    {
      assert rs[..i + 1] == rs[..i] + [rs[i]];
      SumOfAppend(rs[..i], [rs[i]], SuccessIn);
      SumOfAppend(rs[..i], [rs[i]], FailureIn);
      SumOfAppend(rs[..i], [rs[i]], ResourcesIn);
      SumOfAppend(rs[..i], [rs[i]], UntaggedIn);
      SumOfAppend(rs[..i], [rs[i]], TaggedIn);
      t := Step(t, rs[i]);
      i := i + 1;
    }
    assert rs[..i] == rs;
  }

  /** Every region result counts as exactly one of successful or failed, and the successful ones are those that contribute. */
  lemma {:induction false} CountsBalance(rs: seq<RegionScanResult>)
    ensures SumOf(rs, SuccessIn) + SumOf(rs, FailureIn) == |rs|
    ensures SumOf(rs, SuccessIn) == |Filter(rs, Contributes)|
  {
    if |rs| > 0 {
      CountsBalance(rs[1..]);
    }
  }

  /** A region that did not contribute adds nothing but one failure. */
  lemma FailedRegionAddsNothing(a: seq<RegionScanResult>, r: RegionScanResult, b: seq<RegionScanResult>)
    requires !Contributes(r)
    ensures var with, without := SumTotals(a + [r] + b), SumTotals(a + b);
      with == without.(failed := without.failed + 1)
  {
    SumOfAppend(a + [r], b, SuccessIn);
    SumOfAppend(a, [r], SuccessIn);
    SumOfAppend(a, b, SuccessIn);
    SumOfAppend(a + [r], b, FailureIn);
    SumOfAppend(a, [r], FailureIn);
    SumOfAppend(a, b, FailureIn);
    SumOfAppend(a + [r], b, ResourcesIn);
    SumOfAppend(a, [r], ResourcesIn);
    SumOfAppend(a, b, ResourcesIn);
    SumOfAppend(a + [r], b, UntaggedIn);
    SumOfAppend(a, [r], UntaggedIn);
    SumOfAppend(a, b, UntaggedIn);
    SumOfAppend(a + [r], b, TaggedIn);
    SumOfAppend(a, [r], TaggedIn);
    SumOfAppend(a, b, TaggedIn);
  }

  /** The totals do not depend on the order in which the region results arrive. */
  lemma AggregatePermutation(a: seq<RegionScanResult>, b: seq<RegionScanResult>)
    requires multiset(a) == multiset(b)
    ensures SumTotals(a) == SumTotals(b)
  {
    SumOfPermutation(a, b, SuccessIn);
    SumOfPermutation(a, b, FailureIn);
    SumOfPermutation(a, b, ResourcesIn);
    SumOfPermutation(a, b, UntaggedIn);
    SumOfPermutation(a, b, TaggedIn);
  }

  /** Every contributing region carries a scan built as a partition of its resources. */
  predicate ValidScans(rs: seq<RegionScanResult>) {
    forall i :: 0 <= i < |rs| && Contributes(rs[i]) ==> rs[i].scanResult.value.Valid()
  }

  /** When every contributing scan is a partition, the totals balance and the tagged total is at most the resource total. */
  lemma {:induction false} TotalsBalance(rs: seq<RegionScanResult>)
    requires ValidScans(rs)
    ensures SumOf(rs, ResourcesIn) == SumOf(rs, TaggedIn) + SumOf(rs, UntaggedIn)
    ensures 0 <= SumOf(rs, TaggedIn) <= SumOf(rs, ResourcesIn)
  {
    if |rs| > 0 {
      if Contributes(rs[0]) {
        var s := rs[0].scanResult.value;
        FilterPartition(s.resources, Tagged, Untagged);
      }
      assert ValidScans(rs[1..]) by {
        forall i | 0 <= i < |rs| - 1 && Contributes(rs[1..][i]) ensures rs[1..][i].scanResult.value.Valid() {
          assert rs[1..][i] == rs[i + 1];
        }
      }
      TotalsBalance(rs[1..]);
    }
  }

  /** `MultiRegionScanResult` without the durations. */
  datatype MultiRegionScanResult = MultiRegionScanResult(
    kind: ResourceType, regionsScanned: seq<string>,
    successfulScans: int, failedScans: int,
    totalResources: int, totalUntagged: int, totalTagged: int,
    complianceRate: real, regionResults: seq<RegionScanResult>)

  /** The region results, one per target region in target order, given each position's scan outcome. */
  function ScanResults(targets: seq<string>, kind: ResourceType, outcome: nat -> Result<ScanResult, Error>): (rs: seq<RegionScanResult>)
    ensures |rs| == |targets|
    ensures forall i :: 0 <= i < |rs| ==> rs[i] == ScanRegion(targets[i], kind, outcome(i))
  {
    seq(|targets|, i requires 0 <= i < |targets| => ScanRegion(targets[i], kind, outcome(i)))
  }

  /** The aggregate of the given region results: their totals and the overall compliance rate. */
  function Aggregated(kind: ResourceType, targets: seq<string>, rs: seq<RegionScanResult>): (m: MultiRegionScanResult)
    ensures m.regionResults == rs && m.regionsScanned == targets && m.kind == kind
    ensures SumTotals(rs) == Totals(m.successfulScans, m.failedScans, m.totalResources, m.totalUntagged, m.totalTagged)
    ensures m.totalResources == 0 ==> m.complianceRate == 0.0
    ensures m.totalResources != 0 ==> m.complianceRate * (m.totalResources as real) == (m.totalTagged as real) * 100.0
  {
    var t := SumTotals(rs);
    MultiRegionScanResult(kind, targets, t.successful, t.failed, t.resources, t.untagged, t.tagged, Rate(t.tagged, t.resources), rs)
  }

  /**
   * `scan_all_regions`: every target region is scanned; one region's failure
   * does not stop the others.
   */
  function ScanAllRegions(kind: ResourceType, regions: Option<seq<string>>, useAllRegions: bool,
                          outcome: nat -> Result<ScanResult, Error>): (m: MultiRegionScanResult)
    ensures m.regionsScanned == TargetRegions(regions, useAllRegions)
    ensures |m.regionResults| == |m.regionsScanned|
    ensures forall i :: 0 <= i < |m.regionResults| ==>
      m.regionResults[i].region == m.regionsScanned[i] && (Contributes(m.regionResults[i]) <==> outcome(i).Ok?)
    ensures m.successfulScans + m.failedScans == |m.regionsScanned|
  {
    var targets := TargetRegions(regions, useAllRegions);
    var rs := ScanResults(targets, kind, outcome);
    CountsBalance(rs);
    Aggregated(kind, targets, rs)
  }

  /** With valid scans, the overall compliance rate is a percentage. */
  lemma OverallRateBounded(m: MultiRegionScanResult)
    requires m == Aggregated(m.kind, m.regionsScanned, m.regionResults)
    requires ValidScans(m.regionResults)
    ensures 0.0 <= m.complianceRate <= 100.0
    ensures m.totalResources == m.totalTagged + m.totalUntagged
  {
    TotalsBalance(m.regionResults);
  }

  // ---- untagged resources ----

  /** The untagged resources one region adds: none unless it contributed. */
  function UntaggedList(r: RegionScanResult): seq<AWSResource> {
    if Contributes(r) then r.scanResult.value.untaggedResources else []
  }

  /** `get_all_untagged_resources`: the untagged lists of the contributing regions, in result order. */
  function AllUntagged(rs: seq<RegionScanResult>): seq<AWSResource> {
    if |rs| == 0 then [] else UntaggedList(rs[0]) + AllUntagged(rs[1..])
  }

  /** The list has as many resources as the untagged total, and is built region by region. */
  lemma {:induction false} AllUntaggedShape(a: seq<RegionScanResult>, b: seq<RegionScanResult>)
    ensures |AllUntagged(a)| == SumOf(a, UntaggedIn)
    ensures AllUntagged(a + b) == AllUntagged(a) + AllUntagged(b)
  {
    if |a| > 0 {
      assert (a + b)[1..] == a[1..] + b;
      AllUntaggedShape(a[1..], b);
    } else {
      assert a + b == b;
    }
  }

  /** A resource is listed iff some contributing region reported it untagged. */
  lemma {:induction false} AllUntaggedMembers(rs: seq<RegionScanResult>, x: AWSResource)
    ensures x in AllUntagged(rs) <==> exists i :: 0 <= i < |rs| && x in UntaggedList(rs[i])
  {
    if |rs| > 0 {
      AllUntaggedMembers(rs[1..], x);
      if x in AllUntagged(rs[1..]) {
        var i :| 0 <= i < |rs| - 1 && x in UntaggedList(rs[1..][i]);
        assert rs[1..][i] == rs[i + 1];
      }
      if exists i :: 0 <= i < |rs| && x in UntaggedList(rs[i]) {
        var i :| 0 <= i < |rs| && x in UntaggedList(rs[i]);
        if i > 0 {
          assert rs[1..][i - 1] == rs[i];
        }
      }
    }
  }

  // ---- region summary ----

  /** A `get_region_summary` value: the counts of a contributing region, or the error of a failed one. */
  datatype RegionEntry =
    | Summary(total: int, untagged: int, tagged: int, complianceRate: real)
    | Failure(error: Option<string>)

  function Entry(r: RegionScanResult): (e: RegionEntry)
    ensures e.Summary? <==> Contributes(r)
    ensures e.Failure? ==> e.error == r.error
  {
    if Contributes(r) then
      var s := r.scanResult.value;
      Summary(s.totalResources, |s.untaggedResources|, |s.taggedResources|, s.ComplianceRate())
    else Failure(r.error)
  }

  type SummaryItems = Items<RegionEntry>

  /** `get_region_summary`: one entry per region, written in result order. */
  function RegionSummary(rs: seq<RegionScanResult>): SummaryItems {
    if |rs| == 0 then []
    else Put(RegionSummary(rs[..|rs| - 1]), rs[|rs| - 1].region, Entry(rs[|rs| - 1]))
  }

  /** The region of the result at position `j` is not seen again after it. */
  predicate LastFor(rs: seq<RegionScanResult>, j: int, region: string) {
    0 <= j < |rs| && rs[j].region == region && forall j' :: j < j' < |rs| ==> rs[j'].region != region
  }

  /**
   * Each scanned region has exactly one entry, and it describes that region's
   * last result: a later result for the same region overwrites an earlier one.
   */
  lemma {:induction false} RegionSummaryLastWins(rs: seq<RegionScanResult>, region: string)
    ensures DistinctKeys(RegionSummary(rs))
    ensures Lookup(RegionSummary(rs), region).None? <==> forall j :: 0 <= j < |rs| ==> rs[j].region != region
    ensures forall j :: LastFor(rs, j, region) ==> Lookup(RegionSummary(rs), region) == Some(Entry(rs[j]))
    decreases |rs|
  {
    if |rs| > 0 {
      var init, last := rs[..|rs| - 1], rs[|rs| - 1];
      RegionSummaryLastWins(init, region);
      PutLookup(RegionSummary(init), last.region, Entry(last), region);
      PutDistinct(RegionSummary(init), last.region, Entry(last));
      forall j | LastFor(rs, j, region) ensures Lookup(RegionSummary(rs), region) == Some(Entry(rs[j])) {
        if j < |rs| - 1 {
          assert LastFor(init, j, region);
        }
      }
      if last.region != region {
        forall j | 0 <= j < |init| ensures init[j] == rs[j] { }
      }
    }
  }

  // ---- report ----

  /** `data.get('untagged', 0)`. */
  function UntaggedKey(item: (string, RegionEntry)): int {
    if item.1.Summary? then item.1.untagged else 0
  }

  predicate NotError(item: (string, RegionEntry)) {
    item.1.Summary?
  }

  /** Non-increasing in the untagged count. */
  predicate SortedByUntagged(items: SummaryItems) {
    forall i, j :: 0 <= i < j < |items| ==> UntaggedKey(items[i]) >= UntaggedKey(items[j])
  }

  /** Puts `x` before the first element whose count is not larger, so it stays ahead of equal counts after it. */
  function Insert(x: (string, RegionEntry), s: SummaryItems): (r: SummaryItems)
    ensures multiset(r) == multiset(s) + multiset{x}
    ensures |r| == |s| + 1
  {
    if |s| == 0 || UntaggedKey(s[0]) <= UntaggedKey(x) then [x] + s
    else
      assert s == [s[0]] + s[1..];
      [s[0]] + Insert(x, s[1..])
  }

  /** `sorted(..., key=untagged, reverse=True)`: Python's sort is stable, also in reverse. */
  function SortByUntagged(items: SummaryItems): (r: SummaryItems)
    ensures multiset(r) == multiset(items)
    ensures |r| == |items|
  {
    if |items| == 0 then []
    else
      assert items == [items[0]] + items[1..];
      Insert(items[0], SortByUntagged(items[1..]))
  }

  lemma {:induction false} InsertSorted(x: (string, RegionEntry), s: SummaryItems)
    requires SortedByUntagged(s)
    ensures SortedByUntagged(Insert(x, s))
    ensures |Insert(x, s)| > 0 && (UntaggedKey(Insert(x, s)[0]) == UntaggedKey(x) || (|s| > 0 && Insert(x, s)[0] == s[0]))
  {
    if |s| > 0 && UntaggedKey(s[0]) > UntaggedKey(x) {
      InsertSorted(x, s[1..]);
    }
  }

  /** The items with count `c`, in order. */
  function WithCount(items: SummaryItems, c: int): SummaryItems {
    if |items| == 0 then []
    else (if UntaggedKey(items[0]) == c then [items[0]] else []) + WithCount(items[1..], c)
  }

  lemma {:induction false} InsertStable(x: (string, RegionEntry), s: SummaryItems, c: int)
    requires SortedByUntagged(s)
    ensures WithCount(Insert(x, s), c) == WithCount([x] + s, c)
  {
    if |s| > 0 && UntaggedKey(s[0]) > UntaggedKey(x) {
      InsertStable(x, s[1..], c);
      assert ([x] + s)[1..] == s;
      assert ([x] + s[1..])[1..] == s[1..];
      if UntaggedKey(x) == c {
        assert WithCount([s[0]] + Insert(x, s[1..]), c) == WithCount(Insert(x, s[1..]), c);
      }
    } else {
      assert Insert(x, s) == [x] + s;
    }
  }

  /** The sort orders by descending count, keeps every item, and keeps items of equal count in their original order. */
  lemma {:induction false} SortByUntaggedCorrect(items: SummaryItems, c: int)
    ensures SortedByUntagged(SortByUntagged(items))
    ensures WithCount(SortByUntagged(items), c) == WithCount(items, c)
  {
    if |items| > 0 {
      SortByUntaggedCorrect(items[1..], c);
      InsertSorted(items[0], SortByUntagged(items[1..]));
      InsertStable(items[0], SortByUntagged(items[1..]), c);
      assert ([items[0]] + SortByUntagged(items[1..]))[1..] == SortByUntagged(items[1..]);
      assert items == [items[0]] + items[1..];
    }
  }

  /** One row of `top_offending_regions`; the rate is not formatted. */
  datatype Offender = Offender(region: string, untaggedCount: int, totalCount: int, complianceRate: real)

  function OffenderOf(item: (string, RegionEntry)): Offender {
    var e := item.1;
    Offender(item.0, UntaggedKey(item), if e.Summary? then e.total else 0, if e.Summary? then e.complianceRate else 0.0)
  }

  /** The non-error entries ranked by untagged count. */
  function Ranked(summary: SummaryItems): SummaryItems {
    SortByUntagged(Filter(summary, NotError))
  }

  /** `regions_by_untagged[:5]`. */
  function TopOffenders(summary: SummaryItems): (top: seq<Offender>)
    ensures |top| == if |Ranked(summary)| <= 5 then |Ranked(summary)| else 5
    ensures forall i :: 0 <= i < |top| ==> top[i] == OffenderOf(Ranked(summary)[i])
  {
    var ranked := Ranked(summary);
    var n := if |ranked| <= 5 then |ranked| else 5;
    seq(n, i requires 0 <= i < n => OffenderOf(ranked[i]))
  }

  /** The offenders are non-error entries of the summary, in non-increasing order of untagged count. */
  lemma TopOffendersRanked(summary: SummaryItems)
    ensures var top := TopOffenders(summary);
      (forall i, j :: 0 <= i < j < |top| ==> top[i].untaggedCount >= top[j].untaggedCount)
      && (forall i :: 0 <= i < |top| ==> exists item :: item in summary && NotError(item) && top[i] == OffenderOf(item))
  {
    var ranked := Ranked(summary);
    var top := TopOffenders(summary);
    SortByUntaggedCorrect(Filter(summary, NotError), 0);
    forall i | 0 <= i < |top| ensures exists item :: item in summary && NotError(item) && top[i] == OffenderOf(item) {
      assert ranked[i] in multiset(ranked);
      assert ranked[i] in Filter(summary, NotError);
    }
  }

  /** Every non-error entry left out has no more untagged resources than the fifth offender. */
  lemma TopOffendersComplete(summary: SummaryItems, item: (string, RegionEntry))
    requires item in summary && NotError(item)
    ensures var top := TopOffenders(summary);
      (exists i :: 0 <= i < |top| && top[i] == OffenderOf(item))
      || (|top| == 5 && UntaggedKey(item) <= top[4].untaggedCount)
  {
    var ranked := Ranked(summary);
    var top := TopOffenders(summary);
    SortByUntaggedCorrect(Filter(summary, NotError), 0);
    assert item in Filter(summary, NotError);
    assert item in multiset(ranked);
    var k :| 0 <= k < |ranked| && ranked[k] == item;
    if k >= 5 {
      assert UntaggedKey(ranked[4]) >= UntaggedKey(ranked[k]);
    } else {
      assert top[k] == OffenderOf(item);
    }
  }

  /** The recommendations `_generate_recommendations` can make; the prose around the numbers is not modelled. */
  datatype Recommendation =
    | ManyUntagged(count: int, kind: ResourceType)
    | LowCompliance(rate: real)
    | FailedRegions(count: int)
    | S3Security
    | RdsCompliance
    | EbsCost

  function KindAdvice(kind: ResourceType): seq<Recommendation> {
    match kind
    case S3 => [S3Security]
    case RDS => [RdsCompliance]
    case EBS => [EbsCost]
    case _ => []
  }

  /** `_generate_recommendations`: each rule in its fixed order, then the advice for the resource type. */
  function Recommendations(m: MultiRegionScanResult): (recs: seq<Recommendation>)
    ensures ManyUntagged(m.totalUntagged, m.kind) in recs <==> m.totalUntagged > 100
    ensures LowCompliance(m.complianceRate) in recs <==> m.complianceRate < 50.0
    ensures FailedRegions(m.failedScans) in recs <==> m.failedScans > 0
    ensures S3Security in recs <==> m.kind == S3
    ensures RdsCompliance in recs <==> m.kind == RDS
    ensures EbsCost in recs <==> m.kind == EBS
    ensures |recs| == (if m.totalUntagged > 100 then 1 else 0) + (if m.complianceRate < 50.0 then 1 else 0)
      + (if m.failedScans > 0 then 1 else 0) + (if m.kind in {S3, RDS, EBS} then 1 else 0)
  {
    (if m.totalUntagged > 100 then [ManyUntagged(m.totalUntagged, m.kind)] else [])
    + (if m.complianceRate < 50.0 then [LowCompliance(m.complianceRate)] else [])
    + (if m.failedScans > 0 then [FailedRegions(m.failedScans)] else [])
    + KindAdvice(m.kind)
  }

  /** A scan that found nothing has rate 0, so it is always told its compliance is low. */
  lemma EmptyScanIsLowCompliance(kind: ResourceType, targets: seq<string>, rs: seq<RegionScanResult>)
    requires SumOf(rs, ResourcesIn) == 0
    ensures LowCompliance(0.0) in Recommendations(Aggregated(kind, targets, rs))
  {
  }

  /** `generate_multi_region_report` without the formatted rate and duration strings. */
  datatype Report = Report(
    kindValue: string, regionsScanned: int, successfulScans: int, failedScans: int,
    totalResources: int, totalUntagged: int, totalTagged: int,
    breakdown: SummaryItems, topOffenders: seq<Offender>, recommendations: seq<Recommendation>)

  /**
   * The report: the scan's own counters, the region summary, at most five offenders
   * ranked by untagged count, and one recommendation per rule that fires.
   */
  function MultiRegionReport(m: MultiRegionScanResult): (r: Report)
    ensures r.breakdown == RegionSummary(m.regionResults)
    ensures r.regionsScanned == |m.regionsScanned| && r.kindValue == m.kind.KindValue()
    ensures r.successfulScans == m.successfulScans && r.failedScans == m.failedScans
    ensures r.totalResources == m.totalResources && r.totalUntagged == m.totalUntagged && r.totalTagged == m.totalTagged
    ensures |r.topOffenders| <= 5
    ensures forall i, j :: 0 <= i < j < |r.topOffenders| ==> r.topOffenders[i].untaggedCount >= r.topOffenders[j].untaggedCount
    ensures ManyUntagged(m.totalUntagged, m.kind) in r.recommendations <==> m.totalUntagged > 100
    ensures LowCompliance(m.complianceRate) in r.recommendations <==> m.complianceRate < 50.0
    ensures FailedRegions(m.failedScans) in r.recommendations <==> m.failedScans > 0
    ensures S3Security in r.recommendations <==> m.kind == S3
    ensures RdsCompliance in r.recommendations <==> m.kind == RDS
    ensures EbsCost in r.recommendations <==> m.kind == EBS
  {
    var summary := RegionSummary(m.regionResults);
    TopOffendersRanked(summary);
    Report(m.kind.KindValue(), |m.regionsScanned|, m.successfulScans, m.failedScans,
      m.totalResources, m.totalUntagged, m.totalTagged, summary, TopOffenders(summary), Recommendations(m))
  }
}
