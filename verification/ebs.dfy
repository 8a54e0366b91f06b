/**
 * The EBS scanner: attachment derivation, the monthly cost estimate (in thousandths
 * of a dollar), the optimisation opportunities, the value score, the scan that
 * skips volumes it cannot read, the additive `apply_tags` and `find_orphaned_volumes`.
 */
module Ebs {
  import opened Wrappers
  import opened Errors
  import opened Retry
  import opened Seqs
  import opened Resources

  /** One attachment of a volume; an absent field is None. */
  datatype Attachment = Attachment(instanceId: Option<string>, device: Option<string>, deleteOnTermination: Option<bool>)

  /**
   * One entry of `describe_volumes`; an absent field is None. `ageDays` is the
   * whole days since `CreateTime`, 0 without one (the clock is not modelled).
   */
  datatype VolumeDesc = VolumeDesc(
    volumeId: Option<string>, volumeType: Option<string>, size: Option<nat>, iops: Option<int>,
    throughput: Option<int>, state: Option<string>, encrypted: Option<bool>,
    attachments: seq<Attachment>, ageDays: int, tags: Option<seq<(string, string)>>)

  /** The volume types with a price of their own. */
  const PricedTypes: set<string> := {"gp3", "gp2", "io1", "io2", "st1", "sc1", "standard"}

  /** The per-GB-month price of a volume type in thousandths of a dollar; unknown types cost as gp2. */
  function RatePerGb(volumeType: Option<string>): (rate: nat)
    ensures 15 <= rate <= 125
    ensures volumeType == Some("gp2") ==> rate == 100
    ensures volumeType.None? || volumeType.value !in PricedTypes ==> rate == 100
    ensures volumeType.Some? && volumeType.value in PricedTypes && volumeType.value != "gp2" ==> rate != 100
  {
    match volumeType
    case None => 100
    case Some(t) =>
      if t == "gp3" then 80
      else if t == "gp2" then 100
      else if t == "io1" || t == "io2" then 125
      else if t == "st1" then 45
      else if t == "sc1" then 15
      else if t == "standard" then 50
      else 100
  }

  predicate IsProvisionedIops(volumeType: Option<string>) {
    volumeType == Some("io1") || volumeType == Some("io2")
  }

  /**
   * `_estimate_monthly_cost` in thousandths of a dollar: size times the type's
   * rate, plus 5 per provisioned IOPS on io1/io2 and 40 per MB/s above 125 on gp3.
   */
  function MonthlyCost(volumeType: Option<string>, size: nat, iops: Option<int>, throughput: Option<int>): (cost: int)
    ensures cost >= RatePerGb(volumeType) * size
    ensures !IsProvisionedIops(volumeType) && volumeType != Some("gp3") ==> cost == RatePerGb(volumeType) * size
  {
    var base := RatePerGb(volumeType) * size;
    var iopsCost := if IsProvisionedIops(volumeType) && iops.Some? && iops.value > 0 then 5 * iops.value else 0;
    var throughputCost := if volumeType == Some("gp3") && throughput.Some? && throughput.value > 125
      then 40 * (throughput.value - 125) else 0;
    base + iopsCost + throughputCost
  }

  /** The cost is never negative and never falls as the volume grows. */
  lemma MonthlyCostMonotone(volumeType: Option<string>, a: nat, b: nat, iops: Option<int>, throughput: Option<int>)
    requires a <= b
    ensures 0 <= MonthlyCost(volumeType, a, iops, throughput) <= MonthlyCost(volumeType, b, iops, throughput)
  {
    var rate := RatePerGb(volumeType);
    assert rate * a <= rate * b by {
      assert rate * b == rate * a + rate * (b - a);
    }
  }

  /** What moving a volume to gp3 would save each month, in thousandths of a dollar. */
  function Gp3Savings(cost: int, size: nat): int {
    cost - MonthlyCost(Some("gp3"), size, None, None)
  }

  /**
   * `_identify_optimization_opportunities`, in the order of its checks. On io1/io2
   * an absent IOPS value reaches a comparison with an integer, which raises.
   */
  function Opportunities(volumeType: Option<string>, size: nat, iops: Option<int>, encrypted: bool,
                         ageDays: int, attached: bool, cost: int): (r: Result<seq<Opportunity>, Error>)
    ensures r.Err? <==> IsProvisionedIops(volumeType) && iops.None?
    ensures r.Ok? ==> (Opportunity(OrphanedVolume, High) in r.value <==> !attached)
    ensures r.Ok? ==> (Opportunity(VolumeTypeUpgrade, Medium) in r.value <==>
      volumeType == Some("gp2") && size > 20 && Gp3Savings(cost, size) > 0)
    ensures r.Ok? ==> (Opportunity(OverProvisionedIops, Medium) in r.value <==>
      IsProvisionedIops(volumeType) && iops.value > 16000)
    ensures r.Ok? ==> (Opportunity(EncryptionDisabled, High) in r.value <==> !encrypted)
    ensures r.Ok? ==> (Opportunity(OldUnattachedVolume, High) in r.value <==> ageDays > 365 && !attached)
  {
    if IsProvisionedIops(volumeType) && iops.None? then
      Err(TypeError("'>' not supported between instances of 'NoneType' and 'int'"))
    else
      Ok(OpportunityList(!attached, volumeType == Some("gp2") && size > 20 && Gp3Savings(cost, size) > 0,
        IsProvisionedIops(volumeType) && iops.value > 16000, !encrypted, ageDays > 365 && !attached))
  }

  /** The five checks' opportunities, in order, each present when its check fires. */
  function OpportunityList(orphaned: bool, upgrade: bool, overProvisioned: bool, unencrypted: bool, aged: bool): seq<Opportunity> {
    When(orphaned, Opportunity(OrphanedVolume, High))
      + When(upgrade, Opportunity(VolumeTypeUpgrade, Medium))
      + When(overProvisioned, Opportunity(OverProvisionedIops, Medium))
      + When(unencrypted, Opportunity(EncryptionDisabled, High))
      + When(aged, Opportunity(OldUnattachedVolume, High))
  }

  /** The opportunity `o` when `c` holds, nothing otherwise. */
  function When(c: bool, o: Opportunity): (r: seq<Opportunity>)
    ensures o in r <==> c
    ensures forall p :: p in r ==> p == o
  {
    if c then [o] else []
  }

  lemma PenaltyWhen(c: bool, o: Opportunity)
    ensures SumOf(When(c, o), Penalty) == if c then Penalty(o) else 0
  {
  }

  /** An old unattached volume is always also reported as orphaned. */
  lemma OldImpliesOrphaned(volumeType: Option<string>, size: nat, iops: Option<int>, encrypted: bool,
                           ageDays: int, attached: bool, cost: int)
    requires Opportunities(volumeType, size, iops, encrypted, ageDays, attached, cost).Ok?
    requires Opportunity(OldUnattachedVolume, High) in Opportunities(volumeType, size, iops, encrypted, ageDays, attached, cost).value
    ensures Opportunity(OrphanedVolume, High) in Opportunities(volumeType, size, iops, encrypted, ageDays, attached, cost).value
  {
  }

  /** In exact arithmetic a gp2 volume over 20 GB always saves by moving to gp3. */
  lemma Gp2AlwaysUpgradable(size: nat, iops: Option<int>, throughput: Option<int>, encrypted: bool, ageDays: int, attached: bool)
    requires size > 20
    ensures var cost := MonthlyCost(Some("gp2"), size, iops, throughput);
      Gp3Savings(cost, size) == 20 * size
      && Opportunities(Some("gp2"), size, iops, encrypted, ageDays, attached, cost).Ok?
      && Opportunity(VolumeTypeUpgrade, Medium) in Opportunities(Some("gp2"), size, iops, encrypted, ageDays, attached, cost).value
  {
  }

  /**
   * `_calculate_value_score`: 100 less 50 when unattached, 20 when unencrypted,
   * 20 more when also over a year old, 10 for gp2, floored at 0.
   */
  function ValueScore(volumeType: Option<string>, encrypted: bool, ageDays: int, attached: bool): (score: int)
    ensures 0 <= score <= 100
    ensures score == 100 <==> attached && encrypted && volumeType != Some("gp2")
    ensures !attached ==> score <= 50
  {
    var raw := 100
      - (if attached then 0 else 50)
      - (if encrypted then 0 else 20)
      - (if ageDays > 365 && !attached then 20 else 0)
      - (if volumeType == Some("gp2") then 10 else 0);
    if raw < 0 then 0 else raw
  }

  /** The points each opportunity costs the value score; the IOPS review costs none. */
  function Penalty(o: Opportunity): int {
    match o.kind
    case OrphanedVolume => 50
    case VolumeTypeUpgrade => 10
    case OverProvisionedIops => 0
    case EncryptionDisabled => 20
    case OldUnattachedVolume => 20
  }

  /**
   * Apart from a small gp2 volume (penalised but not offered an upgrade), the
   * value score is exactly 100 less the penalties of the opportunities reported.
   */
  lemma ValueScoreMatchesOpportunities(volumeType: Option<string>, size: nat, iops: Option<int>, throughput: Option<int>,
                                       encrypted: bool, ageDays: int, attached: bool)
    requires !(IsProvisionedIops(volumeType) && iops.None?)
    requires volumeType == Some("gp2") ==> size > 20
    ensures var cost := MonthlyCost(volumeType, size, iops, throughput);
      ValueScore(volumeType, encrypted, ageDays, attached)
      == 100 - SumOf(Opportunities(volumeType, size, iops, encrypted, ageDays, attached, cost).value, Penalty)
  {
    var cost := MonthlyCost(volumeType, size, iops, throughput);
    if volumeType == Some("gp2") {
      Gp2AlwaysUpgradable(size, iops, throughput, encrypted, ageDays, attached);
    }
    PenaltiesForCost(volumeType, size, iops, encrypted, ageDays, attached, cost);
  }

  lemma PenaltiesForCost(volumeType: Option<string>, size: nat, iops: Option<int>, encrypted: bool,
                         ageDays: int, attached: bool, cost: int)
    requires !(IsProvisionedIops(volumeType) && iops.None?)
    requires volumeType == Some("gp2") ==> size > 20 && Gp3Savings(cost, size) > 0
    ensures ValueScore(volumeType, encrypted, ageDays, attached)
      == 100 - SumOf(Opportunities(volumeType, size, iops, encrypted, ageDays, attached, cost).value, Penalty)
  {
    var upgrade := volumeType == Some("gp2") && size > 20 && Gp3Savings(cost, size) > 0;
    assert upgrade <==> volumeType == Some("gp2");
    ListPenalty(!attached, upgrade, IsProvisionedIops(volumeType) && iops.value > 16000, !encrypted, ageDays > 365 && !attached);
  }

  /** The penalties of the opportunity list, check by check. */
  lemma ListPenalty(orphaned: bool, upgrade: bool, overProvisioned: bool, unencrypted: bool, aged: bool)
    ensures SumOf(OpportunityList(orphaned, upgrade, overProvisioned, unencrypted, aged), Penalty)
      == (if orphaned then 50 else 0) + (if upgrade then 10 else 0) + (if unencrypted then 20 else 0) + (if aged then 20 else 0)
  {
    var a := When(orphaned, Opportunity(OrphanedVolume, High));
    var b := When(upgrade, Opportunity(VolumeTypeUpgrade, Medium));
    var c := When(overProvisioned, Opportunity(OverProvisionedIops, Medium));
    var d := When(unencrypted, Opportunity(EncryptionDisabled, High));
    var e := When(aged, Opportunity(OldUnattachedVolume, High));
    SumOfFive(a, b, c, d, e, Penalty);
    PenaltyWhen(orphaned, Opportunity(OrphanedVolume, High));
    PenaltyWhen(upgrade, Opportunity(VolumeTypeUpgrade, Medium));
    PenaltyWhen(overProvisioned, Opportunity(OverProvisionedIops, Medium));
    PenaltyWhen(unencrypted, Opportunity(EncryptionDisabled, High));
    PenaltyWhen(aged, Opportunity(OldUnattachedVolume, High));
  }

  lemma SumOfFive<T>(a: seq<T>, b: seq<T>, c: seq<T>, d: seq<T>, e: seq<T>, f: T -> int)
    ensures SumOf(a + b + c + d + e, f) == SumOf(a, f) + SumOf(b, f) + SumOf(c, f) + SumOf(d, f) + SumOf(e, f)
  {
    SumOfAppend(a, b, f);
    SumOfAppend(a + b, c, f);
    SumOfAppend(a + b + c, d, f);
    SumOfAppend(a + b + c + d, e, f);
  }

  /**
   * `_extract_volume_metadata`: attachment details come from the first attachment;
   * an absent size makes the cost estimate raise.
   */
  function VolumeMetadata(v: VolumeDesc): (r: Result<Metadata, Error>)
    ensures r.Ok? <==> v.size.Some? && !(IsProvisionedIops(v.volumeType) && v.iops.None?)
    ensures r.Ok? ==> r.value.EbsMeta? && r.value.volumeId == v.volumeId && r.value.size == v.size.value
    ensures r.Ok? ==> (r.value.isAttached <==> |v.attachments| > 0)
    ensures r.Ok? ==> r.value.instanceId == (if |v.attachments| > 0 then v.attachments[0].instanceId else None)
    ensures r.Ok? ==> r.value.deviceName == (if |v.attachments| > 0 then v.attachments[0].device else None)
    ensures r.Ok? && |v.attachments| == 0 ==> !r.value.deleteOnTermination
    ensures r.Ok? ==> r.value.estimatedMonthlyCost == MonthlyCost(v.volumeType, v.size.value, v.iops, v.throughput)
    ensures r.Ok? ==> r.value.valueScore == ValueScore(v.volumeType, v.encrypted.GetOr(false), v.ageDays, |v.attachments| > 0)
  {
    var attached := |v.attachments| > 0;
    var first := if attached then Some(v.attachments[0]) else None;
    var encrypted := v.encrypted.GetOr(false);
    if v.size.None? then Err(TypeError("unsupported operand type(s) for *: 'float' and 'NoneType'"))
    else
      var size := v.size.value;
      var cost := MonthlyCost(v.volumeType, size, v.iops, v.throughput);
      var opportunities :- Opportunities(v.volumeType, size, v.iops, encrypted, v.ageDays, attached, cost);
      Ok(EbsMeta(v.volumeId, v.volumeType, size, v.iops, v.throughput, encrypted, v.ageDays, attached,
        if attached then first.value.instanceId else None,
        if attached then first.value.device else None,
        attached && first.value.deleteOnTermination.GetOr(false),
        cost, opportunities, ValueScore(v.volumeType, encrypted, v.ageDays, attached)))
  }

  /** One volume of the scan, or the exception reading it raised (a missing `VolumeId` is a KeyError). */
  function VolumeResource(region: string, v: VolumeDesc): (r: Result<AWSResource, Error>)
    ensures v.volumeId.None? ==> r.Err?
    ensures r.Ok? <==> v.volumeId.Some? && VolumeMetadata(v).Ok?
    ensures r.Ok? ==> (r.value.resourceId == v.volumeId.value && r.value.kind == EBS && r.value.region == region
      && r.value.tags == TagsFromPairs(v.tags.GetOr([])) && r.value.state == v.state.GetOr("unknown")
      && r.value.metadata == VolumeMetadata(v).value)
  {
    if v.volumeId.None? then Err(OtherError("'VolumeId'"))
    else
      var meta :- VolumeMetadata(v);
      Ok(AWSResource(v.volumeId.value, EBS, region, TagsFromPairs(v.tags.GetOr([])), v.state.GetOr("unknown"), meta))
  }

  /** The paginator's output as one stream: a volume, or the exception fetching the next page raised. */
  type Stream = seq<Result<VolumeDesc, Error>>

  /** The item is a volume that can be read: it contributes a resource. */
  predicate Readable(region: string, item: Result<VolumeDesc, Error>) {
    item.Ok? && VolumeResource(region, item.value).Ok?
  }

  /** The number of readable volumes among the items. */
  function ReadableCount(region: string, items: Stream): nat {
    if |items| == 0 then 0 else (if Readable(region, items[0]) then 1 else 0) + ReadableCount(region, items[1..])
  }

  /**
   * The volumes that can be read, in stream order; a volume that raises is skipped,
   * a page that raises ends the scan. A successful scan holds one resource per
   * readable volume (`ScanVolumesInOrder` places each of them).
   */
  function ScanVolumes(region: string, items: Stream): (r: Result<seq<AWSResource>, Error>)
    ensures r.Ok? <==> forall i :: 0 <= i < |items| ==> items[i].Ok?
    ensures r.Ok? ==> |r.value| == ReadableCount(region, items) <= |items|
  {
    if |items| == 0 then Ok([])
    else
      assert forall i :: 1 <= i < |items| ==> items[1..][i - 1] == items[i];
      var v :- items[0];
      var rest :- ScanVolumes(region, items[1..]);
      var r := VolumeResource(region, v);
      Ok((if r.Ok? then [r.value] else []) + rest)
  }

  /** A volume that cannot be read leaves the rest of the scan as it was. */
  lemma UnreadableVolumeSkipped(region: string, v: VolumeDesc, items: Stream)
    requires VolumeResource(region, v).Err?
    ensures ScanVolumes(region, [Ok(v)] + items) == ScanVolumes(region, items)
  {
    assert ([Ok(v)] + items)[1..] == items;
    if ScanVolumes(region, items).Ok? {
      assert [] + ScanVolumes(region, items).value == ScanVolumes(region, items).value;
    }
  }

  /** The scan fails iff some page fails; it holds one resource per readable volume, and every resource is a read volume's. */
  lemma ScanVolumesShape(region: string, items: Stream)
    ensures ScanVolumes(region, items).Ok? <==> forall i :: 0 <= i < |items| ==> items[i].Ok?
    ensures ScanVolumes(region, items).Ok? ==> |ScanVolumes(region, items).value| == ReadableCount(region, items) <= |items|
    ensures ScanVolumes(region, items).Ok? ==> forall j :: 0 <= j < |ScanVolumes(region, items).value| ==>
      exists i :: 0 <= i < |items| && VolumeResource(region, items[i].value) == Ok(ScanVolumes(region, items).value[j])
  {
    if ScanVolumes(region, items).Ok? {
      forall j | 0 <= j < |ScanVolumes(region, items).value|
        ensures exists i :: 0 <= i < |items| && VolumeResource(region, items[i].value) == Ok(ScanVolumes(region, items).value[j])
      {
        var i := SourceOf(region, items, j);
      }
    }
  }

  /** The stream position of the volume the scan's `j`-th resource was read from. */
  lemma {:induction false} SourceOf(region: string, items: Stream, j: nat) returns (i: nat)
    requires ScanVolumes(region, items).Ok? && j < |ScanVolumes(region, items).value|
    ensures i < |items| && items[i].Ok? && VolumeResource(region, items[i].value) == Ok(ScanVolumes(region, items).value[j])
  {
    var rs := ScanVolumes(region, items).value;
    var rest := ScanVolumes(region, items[1..]).value;
    var r := VolumeResource(region, items[0].value);
    assert rs == (if r.Ok? then [r.value] else []) + rest;
    if r.Ok? && j == 0 {
      i := 0;
    } else {
      var j' := if r.Ok? then j - 1 else j;
      assert rs[j] == rest[j'];
      var i' := SourceOf(region, items[1..], j');
      assert items[1..][i'] == items[i' + 1];
      i := i' + 1;
    }
  }

  /**
   * A readable volume's resource sits after those of the readable volumes before it.
   * With the count above, the result is exactly the readable volumes' resources, in stream order.
   */
  lemma {:induction false} ScanVolumesInOrder(region: string, items: Stream, i: nat)
    requires ScanVolumes(region, items).Ok? && i < |items| && Readable(region, items[i])
    ensures ReadableCount(region, items[..i]) < |ScanVolumes(region, items).value|
    ensures ScanVolumes(region, items).value[ReadableCount(region, items[..i])] == VolumeResource(region, items[i].value).value
  {
    var rs := ScanVolumes(region, items).value;
    var rest := ScanVolumes(region, items[1..]).value;
    var head := if Readable(region, items[0]) then [VolumeResource(region, items[0].value).value] else [];
    assert rs == head + rest;
    if i == 0 {
      assert items[..0] == [];
    } else {
      var tail := items[1..];
      assert tail[i - 1] == items[i];
      assert items[..i][0] == items[0] && items[..i][1..] == tail[..i - 1];
      var c := ReadableCount(region, tail[..i - 1]);
      assert ReadableCount(region, items[..i]) == |head| + c;
      ScanVolumesInOrder(region, tail, i - 1);
      assert rs[|head| + c] == rest[c];
    }
  }

  /** One attempt of `scan`: the resources partitioned, or the exception reported as a scan failure. */
  function ScanAttempt(region: string, items: Stream): (r: Result<ScanResult, Error>)
    ensures r.Ok? <==> ScanVolumes(region, items).Ok?
    ensures r.Err? ==> r.error == ScanFailure("EBS", ScanVolumes(region, items).error)
    ensures r.Ok? ==> (r.value.Valid() && r.value.kind == EBS && r.value.region == region
      && r.value.resources == ScanVolumes(region, items).value)
  {
    match ScanVolumes(region, items)
    case Err(e) => Err(ScanFailure("EBS", e))
    case Ok(rs) => Ok(Partition(EBS, region, rs))
  }

  /** What each attempt's paginator yields, for the filter it was given. */
  type PageOracle = (Option<seq<string>>, nat) -> Stream

  /** `scan` with its retry decorator, which retries every exception. */
  function Scan(region: string, volumeIds: Option<seq<string>>, pages: PageOracle): (r: (Result<ScanResult, Error>, nat))
    ensures 1 <= r.1 <= MaxAttempts
    ensures r.0 == ScanAttempt(region, pages(NonEmpty(volumeIds), r.1 - 1))
    ensures r.1 < MaxAttempts ==> r.0.Ok?
    ensures forall i :: 0 <= i < r.1 - 1 ==> ScanVolumes(region, pages(NonEmpty(volumeIds), i)).Err?
  {
    WithRetryOver(ScanAttempt, region, pages, NonEmpty(volumeIds), OnAnyError)
  }

  /** One attempt of `apply_tags`: an additive `create_tags`; a ClientError is re-raised as AWSError. */
  function ApplyTagsAttempt(volumeId: string, current: Tags, requested: Tags, callError: Option<Error>): (r: (Result<bool, Error>, Tags))
    ensures r.0.Ok? <==> callError.None?
    ensures r.0.Ok? ==> r.0.value && r.1 == current + requested
    ensures r.0.Err? ==> r.1 == current
    ensures callError.Some? && callError.value.ClientError? ==>
      r.0 == Err(AWSError("Failed to apply tags to EBS volume " + volumeId + ": " + callError.value.Str()))
    ensures callError.Some? && !callError.value.ClientError? ==> r.0 == Err(callError.value)
  {
    match callError
    case None => (Ok(true), current + requested)
    case Some(e) =>
      if e.ClientError? then (Err(AWSError("Failed to apply tags to EBS volume " + volumeId + ": " + e.Str())), current)
      else (Err(e), current)
  }

  /** `apply_tags` with its retry decorator (every exception retried): the outcome, the attempts made and the volume's tags afterwards. */
  function ApplyTags(volumeId: string, current: Tags, requested: Tags, callErrors: nat -> Option<Error>): (r: (Result<bool, Error>, nat, Tags))
    ensures 1 <= r.1 <= MaxAttempts
    ensures r.0.Ok? <==> exists i :: 0 <= i < MaxAttempts && callErrors(i).None?
    ensures r.0.Ok? ==> r.2 == current + requested && callErrors(r.1 - 1).None?
    ensures r.0.Err? ==> r.2 == current && r.1 == MaxAttempts
    ensures r.2 == MergedWrite(current, requested, r.0 == Ok(true))
  {
    var (out, n) := WithRetry((i: nat) => ApplyTagsAttempt(volumeId, current, requested, callErrors(i)).0, OnAnyError);
    (out, n, if out.Ok? then current + requested else current)
  }

  /** A volume with no attachment, as `find_orphaned_volumes` reads its metadata. */
  predicate Unattached(r: AWSResource) {
    !(r.metadata.EbsMeta? && r.metadata.isAttached)
  }

  /** `find_orphaned_volumes`: the scanned volumes that are not attached, in scan order; a failed scan propagates. */
  function FindOrphanedVolumes(region: string, pages: PageOracle): (r: Result<seq<AWSResource>, Error>)
    ensures var s := Scan(region, None, pages).0;
      (r.Ok? <==> s.Ok?) && (r.Ok? ==> r.value == Filter(s.value.resources, Unattached))
    ensures r.Ok? ==> forall i :: 0 <= i < |r.value| ==> Unattached(r.value[i])
  {
    match Scan(region, None, pages).0
    case Err(e) => Err(e)
    case Ok(s) => Ok(Filter(s.resources, Unattached))
  }

  /** Every unattached scanned volume is reported as orphaned. */
  lemma OrphanedComplete(region: string, pages: PageOracle, i: nat)
    requires Scan(region, None, pages).0.Ok?
    requires i < |Scan(region, None, pages).0.value.resources|
    requires Unattached(Scan(region, None, pages).0.value.resources[i])
    ensures Scan(region, None, pages).0.value.resources[i] in FindOrphanedVolumes(region, pages).value
  {
  }
}
